/** Clean-up of the language model's reply before it is parsed as JSON:
    every "```json" is removed, then every "```", then surrounding
    whitespace is stripped. */
module Fences {
  import opened Text

  const JsonFence: string := "```json"
  const Fence: string := "```"

  /** `str.replace(pat, "")`: occurrences of `pat` are found left to right,
      without overlapping, and dropped. */
  function RemoveAll(s: string, pat: string): (r: string)
    requires |pat| > 0
    ensures |r| <= |s|
    decreases |s|
  {
    if |s| < |pat| then s
    else if s[..|pat|] == pat then RemoveAll(s[|pat|..], pat)
    else [s[0]] + RemoveAll(s[1..], pat)
  }

  /** Leading whitespace removed (`str.lstrip()`). */
  function TrimStart(s: string): (r: string)
    ensures |r| <= |s| && r == s[|s| - |r|..]
    ensures forall k :: 0 <= k < |s| - |r| ==> IsSpace(s[k])
    ensures r == [] || !IsSpace(r[0])
  {
    if s != [] && IsSpace(s[0]) then TrimStart(s[1..]) else s
  }

  /** Trailing whitespace removed (`str.rstrip()`). */
  function TrimEnd(s: string): (r: string)
    ensures |r| <= |s| && r == s[..|r|]
    ensures forall k :: |r| <= k < |s| ==> IsSpace(s[k])
    ensures r == [] || !IsSpace(r[|r| - 1])
  {
    if s != [] && IsSpace(s[|s| - 1]) then TrimEnd(s[..|s| - 1]) else s
  }

  /** `str.strip()`. */
  function Strip(s: string): string {
    TrimEnd(TrimStart(s))
  }

  /** `reply.replace("```json", "").replace("```", "").strip()`. */
  function StripFences(reply: string): string {
    Strip(RemoveAll(RemoveAll(reply, JsonFence), Fence))
  }

  /** "```" occurs at position `i`. */
  predicate FenceAt(s: string, i: int) {
    0 <= i && i + 3 <= |s| && s[i] == '`' && s[i + 1] == '`' && s[i + 2] == '`'
  }

  predicate AllSpace(s: string) {
    forall k :: 0 <= k < |s| ==> IsSpace(s[k])
  }

  predicate IsStripped(s: string) {
    s == [] || (!IsSpace(s[0]) && !IsSpace(s[|s| - 1]))
  }

  /** `s` begins with `n` backticks. */
  predicate BackticksFirst(s: string, n: nat) {
    n <= |s| && forall k :: 0 <= k < n ==> s[k] == '`'
  }

  /** Dropping fences does not bring backticks to the front: if the result
      starts with one or two backticks, so did the input. */
  lemma {:induction false} BackticksFirstOfRemoved(u: string, n: nat)
    requires n <= 2 && BackticksFirst(RemoveAll(u, Fence), n)
    ensures BackticksFirst(u, n)
    decreases |u|
  {
    if |u| >= 3 && u[..3] != Fence && n > 0 {
      var rest := RemoveAll(u[1..], Fence);
      var r := RemoveAll(u, Fence);
      assert r == [u[0]] + rest;
      assert forall k :: 0 <= k < n - 1 ==> rest[k] == r[k + 1];
      assert BackticksFirst(rest, n - 1);
      BackticksFirstOfRemoved(u[1..], n - 1);
      forall k | 0 <= k < n ensures u[k] == '`' {
        if k == 0 {
          assert u[0] == r[0];
        } else {
          assert u[k] == u[1..][k - 1];
        }
      }
    } else if |u| >= 3 && u[..3] == Fence {
      assert forall k :: 0 <= k < 3 ==> u[k] == u[..3][k];
    }
  }

  /** After the second replacement no "```" is left: removal never joins
      backticks into a new fence. */
  lemma {:induction false} NoFenceAfterRemoval(u: string)
    ensures forall i :: !FenceAt(RemoveAll(u, Fence), i)
    decreases |u|
  {
    if |u| >= 3 {
      if u[..3] == Fence {
        NoFenceAfterRemoval(u[3..]);
      } else {
        var rest := RemoveAll(u[1..], Fence);
        var r := RemoveAll(u, Fence);
        assert r == [u[0]] + rest;
        NoFenceAfterRemoval(u[1..]);
        forall i ensures !FenceAt(r, i) {
          if i == 0 {
            if BackticksFirst(rest, 2) {
              BackticksFirstOfRemoved(u[1..], 2);
              assert u[1] == u[1..][0] && u[2] == u[1..][1];
              assert u[..3] == [u[0], u[1], u[2]];
              assert r[0] != '`';
            } else {
              assert !(|rest| >= 2 && rest[0] == '`' && rest[1] == '`');
              assert r[1..] == rest;
            }
          } else if 0 < i && i + 3 <= |r| {
            assert r[i] == rest[i - 1] && r[i + 1] == rest[i] && r[i + 2] == rest[i + 1];
            assert !FenceAt(rest, i - 1);
          }
        }
      }
    }
  }

  /** A part of a text without fences has none. */
  lemma NoFenceInSlice(s: string, a: nat, b: nat)
    requires a <= b <= |s| && forall i :: !FenceAt(s, i)
    ensures forall i :: !FenceAt(s[a..b], i)
  {
    forall i | 0 <= i && i + 3 <= b - a ensures !FenceAt(s[a..b], i) {
      assert !FenceAt(s, a + i);
    }
  }

  /** Stripping takes a part of the text. */
  lemma StripIsSlice(u: string) returns (a: nat, b: nat)
    ensures a <= b <= |u| && Strip(u) == u[a..b]
  {
    var t := TrimStart(u);
    var r := TrimEnd(t);
    a := |u| - |t|;
    b := a + |r|;
    assert r == u[a..b] by {
      forall k | 0 <= k < |r| ensures r[k] == u[a + k] {
        assert r[k] == t[k] && t[k] == u[a + k];
      }
    }
  }

  /** Stripping leaves a text that neither starts nor ends with whitespace. */
  lemma StripIsStripped(u: string)
    ensures IsStripped(Strip(u))
  {
    var t := TrimStart(u);
    var r := TrimEnd(t);
    if r != [] {
      assert r[0] == t[0];
    }
  }

  /** The cleaned reply holds no "```" and neither starts nor ends with
      whitespace. */
  lemma StripFencesClean(reply: string)
    ensures forall i :: !FenceAt(StripFences(reply), i)
    ensures IsStripped(StripFences(reply))
  {
    var u := RemoveAll(RemoveAll(reply, JsonFence), Fence);
    NoFenceAfterRemoval(RemoveAll(reply, JsonFence));
    var a, b := StripIsSlice(u);
    NoFenceInSlice(u, a, b);
    StripIsStripped(u);
  }

  /** Text free of backticks passes through a fence removal untouched. */
  lemma {:induction false} RemoveAllSkipsPlainPrefix(u: string, v: string, pat: string)
    requires |pat| > 0 && pat[0] == '`' && forall k :: 0 <= k < |u| ==> u[k] != '`'
    ensures RemoveAll(u + v, pat) == u + RemoveAll(v, pat)
    decreases |u|
  {
    var w := u + v;
    if u == [] {
      assert w == v;
    } else if |w| < |pat| {
      assert RemoveAll(w, pat) == w;
      assert RemoveAll(v, pat) == v;
    } else {
      assert w[..|pat|][0] == u[0] != pat[0];
      assert RemoveAll(w, pat) == [w[0]] + RemoveAll(w[1..], pat);
      assert w[1..] == u[1..] + v;
      RemoveAllSkipsPlainPrefix(u[1..], v, pat);
      assert u == [u[0]] + u[1..];
    }
  }

  lemma {:induction false} TrimStartOf(p: string, t: string)
    requires AllSpace(p) && (t == [] || !IsSpace(t[0]))
    ensures TrimStart(p + t) == t
    decreases |p|
  {
    if p == [] {
      assert p + t == t;
    } else {
      assert (p + t)[1..] == p[1..] + t;
      TrimStartOf(p[1..], t);
    }
  }

  lemma {:induction false} TrimEndOf(t: string, q: string)
    requires AllSpace(q) && (t == [] || !IsSpace(t[|t| - 1]))
    ensures TrimEnd(t + q) == t
    decreases |q|
  {
    if q == [] {
      assert t + q == t;
    } else {
      assert (t + q)[..|t + q| - 1] == t + q[..|q| - 1];
      TrimEndOf(t, q[..|q| - 1]);
    }
  }

  /** Stripping recovers a stripped text from between whitespace. */
  lemma StripBetweenSpace(p: string, b: string, q: string)
    requires AllSpace(p) && AllSpace(q) && IsStripped(b)
    ensures Strip(p + b + q) == b
  {
    if b == [] {
      assert p + b + q == (p + q) + [];
      TrimStartOf(p + q, []);
    } else {
      assert p + b + q == p + (b + q);
      TrimStartOf(p, b + q);
      TrimEndOf(b, q);
    }
  }

  /** A reply wrapped the way the model is asked to answer, a JSON body
      between "```json" and "```" lines, comes back as the body. */
  lemma UnwrapsFencedReply(body: string)
    requires IsStripped(body) && forall k :: 0 <= k < |body| ==> body[k] != '`'
    ensures StripFences(JsonFence + "\n" + body + "\n" + Fence) == body
  {
    var reply := JsonFence + "\n" + body + "\n" + Fence;
    var plain := "\n" + body + "\n";
    assert reply == JsonFence + (plain + Fence);
    assert reply[..|JsonFence|] == JsonFence;
    assert reply[|JsonFence|..] == plain + Fence;
    RemoveAllSkipsPlainPrefix(plain, Fence, JsonFence);
    assert RemoveAll(Fence, JsonFence) == Fence;
    RemoveAllSkipsPlainPrefix(plain, [], Fence);
    RemoveAllSkipsPlainPrefix(plain, Fence, Fence);
    assert Fence[..3] == Fence && Fence[3..] == [];
    assert RemoveAll(Fence, Fence) == RemoveAll([], Fence) == [];
    assert plain + [] == "\n" + body + "\n";
    StripBetweenSpace("\n", body, "\n");
  }
}
