/**
 * responseRecorder (src/frontend/middleware.go:41-61): a ResponseWriter
 * that passes every call through to the writer it wraps and remembers the
 * status it last saw and the number of bytes written.
 */
module Recorder {
  import opened Results
  import opened Http

  /** The status a recorder holds after a body write: a write with no status set yet implies 200. */
  function StatusAfterWrite(status: int): int {
    if status == 0 then StatusOK else status
  }

  /** The recorder's status after a downstream handler's calls, in order. */
  function StatusAfter(status: int, acts: seq<Action>): int
    decreases |acts|
  {
    if acts == [] then status
    else
      var before := StatusAfter(status, acts[..|acts| - 1]);
      match acts[|acts| - 1]
      case WriteHeader(code) => code
      case Write(_) => StatusAfterWrite(before)
  }

  /** The recorder's byte count after the calls: each Write adds what the connection reported. */
  function BytesAfter(b: int, acts: seq<Action>, transmit: seq<byte> -> Transmission): int
    decreases |acts|
  {
    if acts == [] then b
    else
      var before := BytesAfter(b, acts[..|acts| - 1], transmit);
      match acts[|acts| - 1]
      case WriteHeader(_) => before
      case Write(p) => before + transmit(p).n
  }

  predicate IsHeader(a: Action) {
    a.WriteHeader?
  }

  predicate IsBodyWrite(a: Action) {
    a.Write?
  }

  /** net/http accepts only three-digit status codes. */
  predicate ValidCodes(acts: seq<Action>) {
    forall i :: 0 <= i < |acts| && IsHeader(acts[i]) ==> 100 <= acts[i].code <= 999
  }

  /** With no WriteHeader among the calls, the status is the old one, or 200 if
      it was unset and some body write happened. */
  lemma {:induction false} StatusAfterNoHeader(status: int, acts: seq<Action>)
    requires forall i :: 0 <= i < |acts| ==> !IsHeader(acts[i])
    ensures StatusAfter(status, acts) ==
      if exists i :: 0 <= i < |acts| && IsBodyWrite(acts[i]) then StatusAfterWrite(status) else status
    decreases |acts|
  {
    if acts != [] {
      var init := acts[..|acts| - 1];
      StatusAfterNoHeader(status, init);
      assert IsBodyWrite(acts[|acts| - 1]);
      if exists i :: 0 <= i < |init| && IsBodyWrite(init[i]) {
        var i :| 0 <= i < |init| && IsBodyWrite(init[i]);
        assert acts[i] == init[i];
      }
    }
  }

  /** The last explicit WriteHeader decides the status: a later body write does not
      change a non-zero code. */
  lemma {:induction false} StatusAfterLastHeader(status: int, pre: seq<Action>, code: int, post: seq<Action>)
    requires code != 0
    requires forall i :: 0 <= i < |post| ==> !IsHeader(post[i])
    ensures StatusAfter(status, pre + [WriteHeader(code)] + post) == code
    decreases |post|
  {
    var acts := pre + [WriteHeader(code)] + post;
    if post == [] {
      assert acts[..|acts| - 1] == pre;
    } else {
      var init := post[..|post| - 1];
      assert acts[..|acts| - 1] == pre + [WriteHeader(code)] + init;
      StatusAfterLastHeader(status, pre, code, init);
      assert acts[|acts| - 1] == post[|post| - 1];
    }
  }

  /** A recorder that starts at 0 still reads 0 exactly when the handler below made no call. */
  lemma StatusZeroIffSilent(acts: seq<Action>)
    requires ValidCodes(acts)
    ensures StatusAfter(0, acts) == 0 <==> acts == []
  {
    if acts != [] {
      if exists i :: 0 <= i < |acts| && IsHeader(acts[i]) {
        var j :| 0 <= j < |acts| && IsHeader(acts[j]);
        // pick the last header
        var k := LastHeader(acts, j);
        assert acts == acts[..k] + [WriteHeader(acts[k].code)] + acts[k + 1..];
        StatusAfterLastHeader(0, acts[..k], acts[k].code, acts[k + 1..]);
      } else {
        StatusAfterNoHeader(0, acts);
        assert IsBodyWrite(acts[0]);
      }
    }
  }

  /** The index of the last WriteHeader at or after `j`. */
  function LastHeader(acts: seq<Action>, j: nat): (k: nat)
    requires j < |acts| && IsHeader(acts[j])
    ensures j <= k < |acts| && IsHeader(acts[k])
    ensures forall i :: k < i < |acts| ==> !IsHeader(acts[i])
    decreases |acts| - j
  {
    if exists i :: j < i < |acts| && IsHeader(acts[i]) then
      var i :| j < i < |acts| && IsHeader(acts[i]);
      LastHeader(acts, i)
    else j
  }

  /** Two writes with no explicit status: status 200, bytes the sum of both counts. */
  lemma TwoWrites(p1: seq<byte>, p2: seq<byte>, transmit: seq<byte> -> Transmission)
    ensures StatusAfter(0, [Write(p1), Write(p2)]) == StatusOK
    ensures BytesAfter(0, [Write(p1), Write(p2)], transmit) == transmit(p1).n + transmit(p2).n
  {
    var acts := [Write(p1), Write(p2)];
    assert acts[..1] == [Write(p1)];
    assert [Write(p1)][..0] == [];
    assert StatusAfter(0, acts[..1]) == StatusOK;
    assert BytesAfter(0, acts[..1], transmit) == transmit(p1).n;
  }

  /** An explicit 404 survives a later body write. */
  lemma HeaderThenWrite(p: seq<byte>)
    ensures StatusAfter(0, [WriteHeader(404), Write(p)]) == 404
  {
    assert [WriteHeader(404), Write(p)][..1] == [WriteHeader(404)];
  }

  class ResponseRecorder {
    var b: int
    var status: int
    const w: Sink

    /** `&responseRecorder{w: w}`: zero bytes, no status yet. */
    constructor (w: Sink)
      ensures this.w == w && b == 0 && status == 0
    {
      this.w := w;
      b, status := 0, 0;
    }

    /** The wrapped writer's header map itself, so edits through it reach the connection. */
    function Header(): (h: HeaderMap)
      reads this
      ensures h == w.header
    {
      w.header
    }

    method Write(p: seq<byte>) returns (n: int, err: Option<string>)
      modifies this, w
      ensures status == StatusAfter(old(status), [Action.Write(p)])
      ensures b == old(b) + n
      ensures n == w.transmit(p).n && err == w.transmit(p).err
      ensures w.received == old(w.received) + [Action.Write(p)]
    {
      if status == 0 {
        status := StatusOK;
      }
      n, err := w.Write(p);
      b := b + n;
    }

    method WriteHeader(statusCode: int)
      modifies this, w
      ensures status == statusCode && b == old(b)
      ensures w.received == old(w.received) + [Action.WriteHeader(statusCode)]
    {
      status := statusCode;
      w.WriteHeader(statusCode);
    }

    /** A downstream handler making the calls `acts` on this recorder, one after another. */
    method Replay(acts: seq<Action>)
      modifies this, w
      ensures status == StatusAfter(old(status), acts)
      ensures b == BytesAfter(old(b), acts, w.transmit)
      ensures w.received == old(w.received) + acts
    {
      for i := 0 to |acts|
        invariant status == StatusAfter(old(status), acts[..i])
        invariant b == BytesAfter(old(b), acts[..i], w.transmit)
        invariant w.received == old(w.received) + acts[..i]
      {
        assert acts[..i + 1][..i] == acts[..i];
        match acts[i]
        case WriteHeader(code) =>
          WriteHeader(code);
        case Write(p) =>
          var _, _ := Write(p);
      }
      assert acts[..|acts|] == acts;
    }
  }
}
