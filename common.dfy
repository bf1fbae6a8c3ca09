/** Shared vocabulary of the OTP services: optional values, the channel a
    code is sent over, the `<prefix>:<type>:<identifier>` store keys, the
    JavaScript `trim` applied to codes, second rounding, and the loop that
    sweeps expired entries out of a store. */
module Common {

  datatype Option<T> = None | Some(value: T)

  /** Time in milliseconds since the epoch, as `Date.now()` returns it. */
  type Time = nat

  /** The `type` argument of the OTP services: codes go to a phone or an email address. */
  datatype Channel = Phone | Email

  function ChannelName(c: Channel): string
  {
    match c
    case Phone => "phone"
    case Email => "email"
  }

  /** The key every store uses: `<prefix>:<type>:<identifier>`. */
  function Key(prefix: string, c: Channel, identifier: string): (k: string)
    ensures |k| == |prefix| + 7 + |identifier|
    ensures k[..|prefix|] == prefix && k[|prefix| + 7..] == identifier
  {
    prefix + ":" + ChannelName(c) + ":" + identifier
  }

  /** Within one store, a key names exactly one (channel, identifier) pair, so
      entries of different identifiers or channels never share a slot. */
  lemma {:induction false} KeyInjective(prefix: string, c1: Channel, id1: string, c2: Channel, id2: string)
    ensures Key(prefix, c1, id1) == Key(prefix, c2, id2) <==> c1 == c2 && id1 == id2
  {
    var k1, k2 := Key(prefix, c1, id1), Key(prefix, c2, id2);
    if k1 == k2 {
      assert k1[|prefix| + 1] == ChannelName(c1)[0];
      assert k2[|prefix| + 1] == ChannelName(c2)[0];
      assert c1 == c2;
      assert id1 == k1[|prefix| + 7..] == k2[|prefix| + 7..] == id2;
    }
  }

  /** The characters `String.prototype.trim` removes: WhiteSpace (including
      the Zs category) and LineTerminator of section 12.2 and 12.3 of
      ECMA-262. */
  predicate IsJsWhitespace(ch: char)
  {
    || ch == '\t' || ch == '\n' || ch == '\U{000B}' || ch == '\U{000C}' || ch == '\r'
    || ch == ' ' || ch == '\U{00A0}' || ch == '\U{1680}'
    || ('\U{2000}' <= ch <= '\U{200A}')
    || ch == '\U{2028}' || ch == '\U{2029}' || ch == '\U{202F}' || ch == '\U{205F}'
    || ch == '\U{3000}' || ch == '\U{FEFF}'
  }

  function TrimStart(s: string): (r: string)
    ensures |r| <= |s| && r == s[|s| - |r|..]
    ensures forall i :: 0 <= i < |s| - |r| ==> IsJsWhitespace(s[i])
    ensures r == [] || !IsJsWhitespace(r[0])
    decreases |s|
  {
    if |s| > 0 && IsJsWhitespace(s[0]) then TrimStart(s[1..]) else s
  }

  function TrimEnd(s: string): (r: string)
    ensures |r| <= |s| && r == s[..|r|]
    ensures forall i :: |r| <= i < |s| ==> IsJsWhitespace(s[i])
    ensures r == [] || !IsJsWhitespace(r[|r| - 1])
    decreases |s|
  {
    if |s| > 0 && IsJsWhitespace(s[|s| - 1]) then TrimEnd(s[..|s| - 1]) else s
  }

  /** `String(x).trim()`: drops leading and trailing whitespace. */
  function Trim(s: string): (r: string)
    ensures |r| <= |s|
    ensures r == [] || (!IsJsWhitespace(r[0]) && !IsJsWhitespace(r[|r| - 1]))
  {
    TrimEnd(TrimStart(s))
  }

  /** The trim is the input less its leading and its trailing whitespace:
      a slice `s[i..i + |r|]` with only whitespace before and after it. */
  lemma {:induction false} TrimIsInfix(s: string)
    ensures var r, i := Trim(s), |s| - |TrimStart(s)|;
            && 0 <= i <= |s| - |r|
            && r == s[i..i + |r|]
            && (forall k :: 0 <= k < i ==> IsJsWhitespace(s[k]))
            && (forall k :: i + |r| <= k < |s| ==> IsJsWhitespace(s[k]))
  {
    var t := TrimStart(s);
    SliceOfSlice(s, t, TrimEnd(t));
  }

  /** A prefix `r` of a suffix `t` of `s`, with whitespace before `t` and
      after `r` inside `t`, is a slice of `s` with whitespace around it. */
  lemma {:induction false} SliceOfSlice(s: string, t: string, r: string)
    requires |t| <= |s| && t == s[|s| - |t|..]
    requires forall k :: 0 <= k < |s| - |t| ==> IsJsWhitespace(s[k])
    requires |r| <= |t| && r == t[..|r|]
    requires forall j :: |r| <= j < |t| ==> IsJsWhitespace(t[j])
    ensures var i := |s| - |t|;
            && 0 <= i <= |s| - |r|
            && r == s[i..i + |r|]
            && (forall k :: 0 <= k < i ==> IsJsWhitespace(s[k]))
            && (forall k :: i + |r| <= k < |s| ==> IsJsWhitespace(s[k]))
  {
    var i := |s| - |t|;
    forall k | i + |r| <= k < |s|
      ensures IsJsWhitespace(s[k])
    {
      assert s[k] == t[k - i];
    }
  }

  /** Leading whitespace before a part that does not start with it is
      dropped by `TrimStart`. */
  lemma {:induction false} TrimStartSkips(pre: string, rest: string)
    requires forall k :: 0 <= k < |pre| ==> IsJsWhitespace(pre[k])
    requires rest == [] || !IsJsWhitespace(rest[0])
    ensures TrimStart(pre + rest) == rest
    decreases |pre|
  {
    if pre == [] {
      assert pre + rest == rest;
    } else {
      assert (pre + rest)[0] == pre[0];
      assert (pre + rest)[1..] == pre[1..] + rest;
      TrimStartSkips(pre[1..], rest);
    }
  }

  /** Trailing whitespace after a part that does not end with it is dropped
      by `TrimEnd`. */
  lemma {:induction false} TrimEndSkips(rest: string, post: string)
    requires forall k :: 0 <= k < |post| ==> IsJsWhitespace(post[k])
    requires rest == [] || !IsJsWhitespace(rest[|rest| - 1])
    ensures TrimEnd(rest + post) == rest
    decreases |post|
  {
    if post == [] {
      assert rest + post == rest;
    } else {
      var init := post[..|post| - 1];
      assert (rest + post)[|rest + post| - 1] == post[|post| - 1];
      assert (rest + post)[..|rest + post| - 1] == rest + init;
      TrimEndSkips(rest, init);
    }
  }

  /** A code padded with whitespace on either side trims back to the code;
      a string of whitespace alone trims to nothing. */
  lemma TrimPadded(pre: string, t: string, post: string)
    requires forall k :: 0 <= k < |pre| ==> IsJsWhitespace(pre[k])
    requires forall k :: 0 <= k < |post| ==> IsJsWhitespace(post[k])
    requires t == [] || (!IsJsWhitespace(t[0]) && !IsJsWhitespace(t[|t| - 1]))
    ensures Trim(pre + t + post) == t
  {
    if t == [] {
      assert pre + t + post == (pre + post) + [];
      TrimStartSkips(pre + post, []);
    } else {
      assert pre + t + post == pre + (t + post);
      assert (t + post)[0] == t[0];
      TrimStartSkips(pre, t + post);
      TrimEndSkips(t, post);
    }
  }

  /** A string with no whitespace at either end is its own trim. */
  lemma {:induction false} TrimUnchanged(s: string)
    requires s == [] || (!IsJsWhitespace(s[0]) && !IsJsWhitespace(s[|s| - 1]))
    ensures Trim(s) == s
  {
    assert TrimStart(s) == s;
    assert TrimEnd(s) == s;
  }

  /** Trimming twice is trimming once. */
  lemma TrimIdempotent(s: string)
    ensures Trim(Trim(s)) == Trim(s)
  {
    TrimUnchanged(Trim(s));
  }

  /** `Math.ceil(d / 1000)` for a non-negative number of milliseconds `d`:
      the least number of whole seconds that covers `d`. */
  function CeilSeconds(d: nat): (r: nat)
    ensures r * 1000 >= d
    ensures r == 0 || (r - 1) * 1000 < d
  {
    (d + 999) / 1000
  }

  /** One pass of a periodic sweep: visits every entry of `m` and deletes
      those that `expired` selects. */
  method SweepExpired<V>(m: map<string, V>, expired: V -> bool) returns (kept: map<string, V>)
    ensures forall k :: k in kept <==> k in m && !expired(m[k])
    ensures forall k :: k in kept ==> kept[k] == m[k]
  {
    kept := m;
    var pending := m.Keys;
    while pending != {}
      invariant pending <= m.Keys
      invariant forall k :: k in kept <==> k in m && (k in pending || !expired(m[k]))
      invariant forall k :: k in kept ==> kept[k] == m[k]
      decreases |pending|
    {
      var k :| k in pending;
      if expired(m[k]) {
        kept := kept - {k};
      }
      pending := pending - {k};
    }
  }
}
