/**
 * Splitting the gRPC request URI: `explode('/', $uri ?? '')` followed by the
 * destructuring `[, $service, $method]` and `$service = '/' . $service`.
 */
module Uri {
  import opened Basics

  /** `explode('/', s)`: the pieces between slashes, always at least one. */
  function Explode(s: string): (parts: seq<string>)
    ensures |parts| >= 1
    ensures forall i :: 0 <= i < |parts| ==> '/' !in parts[i]
    decreases |s|
  {
    if s == [] then [""]
    else if s[0] == '/' then [""] + Explode(s[1..])
    else
      var rest := Explode(s[1..]);
      [[s[0]] + rest[0]] + rest[1..]
  }

  /** `implode('/', parts)`, the inverse of Explode. */
  function Implode(parts: seq<string>): string
    requires |parts| >= 1
  {
    if |parts| == 1 then parts[0] else parts[0] + "/" + Implode(parts[1..])
  }

  /** Exploding loses nothing: joining the pieces with '/' gives the URI back. */
  lemma {:induction false} ImplodeExplode(s: string)
    ensures Implode(Explode(s)) == s
    decreases |s|
  {
    if s == [] {
    } else if s[0] == '/' {
      ImplodeExplode(s[1..]);
      assert s == "" + "/" + s[1..];
    } else {
      var rest := Explode(s[1..]);
      ImplodeExplode(s[1..]);
      if |rest| == 1 {
        assert Implode(Explode(s)) == [s[0]] + rest[0];
      } else {
        assert Implode(Explode(s)) == [s[0]] + rest[0] + "/" + Implode(rest[1..]);
      }
      assert s == [s[0]] + s[1..];
    }
  }

  /** A piece without slashes is not split. */
  lemma {:induction false} ExplodeSlashFree(a: string)
    requires '/' !in a
    ensures Explode(a) == [a]
    decreases |a|
  {
    if a != [] {
      ExplodeSlashFree(a[1..]);
      assert a == [a[0]] + a[1..];
    }
  }

  /** The first slash ends the first piece. */
  lemma {:induction false} ExplodeAfterPiece(a: string, b: string)
    requires '/' !in a
    ensures Explode(a + "/" + b) == [a] + Explode(b)
    decreases |a|
  {
    if a == [] {
      assert a + "/" + b == "/" + b;
      assert ("/" + b)[1..] == b;
    } else {
      ExplodeAfterPiece(a[1..], b);
      assert (a + "/" + b)[1..] == a[1..] + "/" + b;
      assert [a[0]] + a[1..] == a;
    }
  }

  /**
   * `[, $service, $method] = explode('/', $uri ?? '')` with the service
   * prefixed by '/'. A URI with fewer than three pieces leaves `$method` unset:
   * None. Pieces after the third are ignored.
   */
  function SplitUri(uri: Option<string>): (r: Option<(string, string)>)
    ensures r.Some? ==> |r.value.0| >= 1 && r.value.0[0] == '/'
    ensures r.Some? ==> '/' !in r.value.0[1..] && '/' !in r.value.1
  {
    var parts := Explode(if uri.Some? then uri.value else "");
    if |parts| >= 3 then Some(("/" + parts[1], parts[2])) else None
  }

  /** `/S/M` splits into service `/S` and method `M`. */
  lemma SplitServiceMethod(service: string, rpc: string)
    requires '/' !in service && '/' !in rpc
    ensures SplitUri(Some("/" + service + "/" + rpc)) == Some(("/" + service, rpc))
  {
    ExplodeSlashFree(rpc);
    ExplodeAfterPiece(service, rpc);
    ExplodeAfterPiece("", service + "/" + rpc);
    assert "" + "/" + (service + "/" + rpc) == "/" + service + "/" + rpc;
  }

  /** Whatever follows `/S/M/` does not change the split. */
  lemma SplitIgnoresTail(service: string, rpc: string, tail: string)
    requires '/' !in service && '/' !in rpc
    ensures SplitUri(Some("/" + service + "/" + rpc + "/" + tail)) == Some(("/" + service, rpc))
  {
    ExplodeAfterPiece(rpc, tail);
    ExplodeAfterPiece(service, rpc + "/" + tail);
    ExplodeAfterPiece("", service + "/" + (rpc + "/" + tail));
    assert "" + "/" + (service + "/" + (rpc + "/" + tail)) == "/" + service + "/" + rpc + "/" + tail;
  }

  /** Number of slashes in a string. */
  function Slashes(s: string): nat
  {
    if s == [] then 0 else (if s[0] == '/' then 1 else 0) + Slashes(s[1..])
  }

  /** Explode yields one more piece than the string has slashes. */
  lemma {:induction false} ExplodeCount(s: string)
    ensures |Explode(s)| == Slashes(s) + 1
    decreases |s|
  {
    if s != [] {
      ExplodeCount(s[1..]);
    }
  }

  /** A missing URI, or one with fewer than two slashes, cannot be split. */
  lemma SplitNeedsTwoSlashes(uri: Option<string>)
    requires uri.None? || Slashes(uri.value) < 2
    ensures SplitUri(uri) == None
  {
    ExplodeCount(if uri.Some? then uri.value else "");
  }
}
