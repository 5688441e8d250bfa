/** Buckets (provider x model x effort), their string keys, and the ordered prefix scan
    that finds the buckets of one model name. */
module BucketKeys {

  const UNKNOWN := "unknown"
  const ANTHROPIC := "anthropic"

  datatype Bucket = Bucket(provider: string, model: string, effort: string)

  function NonEmpty(s: string): string {
    if s == "" then UNKNOWN else s
  }

  function FromParts(provider: string, model: string, effort: string): Bucket {
    Bucket(NonEmpty(provider), NonEmpty(model), NonEmpty(effort))
  }

  /** The part of a model name before its first `[`. */
  function Bare(model: string): string {
    if model == "" || model[0] == '[' then "" else [model[0]] + Bare(model[1..])
  }

  lemma {:induction false} BareIsPrefix(model: string)
    ensures Bare(model) <= model && '[' !in Bare(model)
    ensures |Bare(model)| < |model| ==> model[|Bare(model)|] == '['
  {
    if model != "" && model[0] != '[' {
      BareIsPrefix(model[1..]);
    }
  }

  lemma {:induction false} BareOfBare(model: string)
    ensures Bare(Bare(model)) == Bare(model)
  {
    if model != "" && model[0] != '[' {
      BareOfBare(model[1..]);
      assert Bare(model)[1..] == Bare(model[1..]);
    }
  }

  lemma {:induction false} BareWithout(model: string)
    requires '[' !in model
    ensures Bare(model) == model
  {
    if model != "" {
      assert model[0] in model && model == [model[0]] + model[1..];
      BareWithout(model[1..]);
    }
  }

  // Keys

  function EscapeChar(c: char): string {
    if c == '%' then "%25" else if c == '/' then "%2F" else [c]
  }

  function Escape(s: string): (e: string)
    ensures '/' !in e
  {
    if s == "" then "" else EscapeChar(s[0]) + Escape(s[1..])
  }

  function Key(b: Bucket): string {
    Escape(b.provider) + "/" + Escape(b.model) + "/" + Escape(b.effort)
  }

  method EscapeComponent(s: string) returns (escaped: string)
    ensures escaped == Escape(s)
  {
    hide EscapeChar;
    escaped := "";
    for i := 0 to |s|
      invariant escaped + Escape(s[i..]) == Escape(s)
    {
      assert s[i..][1..] == s[i + 1..];
      assert escaped + (EscapeChar(s[i]) + Escape(s[i + 1..])) == escaped + EscapeChar(s[i]) + Escape(s[i + 1..]);
      escaped := escaped + EscapeChar(s[i]);
    }
  }

  /** The value of a hexadecimal digit as percent-encoding writes it. */
  function HexValue(c: char): int {
    if '0' <= c <= '9' then c as int - '0' as int else if 'A' <= c <= 'F' then c as int - 'A' as int + 10 else 0
  }

  /** Percent-decoding: `%` and two digits stand for the character with that code. */
  function PercentDecoded(e: string): string {
    if e == "" then ""
    else if e[0] == '%' && |e| >= 3 && 0 <= 16 * HexValue(e[1]) + HexValue(e[2]) < 0x100 then
      [(16 * HexValue(e[1]) + HexValue(e[2])) as char] + PercentDecoded(e[3..])
    else [e[0]] + PercentDecoded(e[1..])
  }

  lemma {:induction false} EscapedCharDecoded(c: char, rest: string)
    ensures PercentDecoded(EscapeChar(c) + rest) == [c] + PercentDecoded(rest)
  {
    var e := EscapeChar(c) + rest;
    if c == '%' || c == '/' {
      assert e[3..] == rest;
    } else {
      assert e[1..] == rest;
    }
  }

  /** Percent-decoding undoes the escaping. */
  lemma {:induction false} EscapeDecoded(s: string)
    ensures PercentDecoded(Escape(s)) == s
  {
    if s != "" {
      EscapeDecoded(s[1..]);
      EscapedCharDecoded(s[0], Escape(s[1..]));
    }
  }

  /** Only the separator and `%` itself are escaped. */
  lemma {:induction false} PlainUnescaped(s: string)
    requires '%' !in s && '/' !in s
    ensures Escape(s) == s
  {
    if s != "" {
      assert s == [s[0]] + s[1..];
      PlainUnescaped(s[1..]);
    }
  }

  lemma {:induction false} EscapeInjective(s: string, t: string)
    requires Escape(s) == Escape(t)
    ensures s == t
  {
    if s != "" && t != "" {
      assert Escape(s)[0] == EscapeChar(s[0])[0] && Escape(t)[0] == EscapeChar(t[0])[0];
      if s[0] in "%/" && t[0] in "%/" {
        assert Escape(s)[2] == EscapeChar(s[0])[2] && Escape(t)[2] == EscapeChar(t[0])[2];
      }
      assert s[0] == t[0];
      assert Escape(s)[|EscapeChar(s[0])|..] == Escape(s[1..]);
      assert Escape(t)[|EscapeChar(t[0])|..] == Escape(t[1..]);
      EscapeInjective(s[1..], t[1..]);
    }
  }

  lemma {:induction false} SplitAtSlash(a: string, x: string, b: string, y: string)
    requires '/' !in a && '/' !in b
    requires a + "/" + x == b + "/" + y
    ensures a == b && x == y
  {
    var whole := a + "/" + x;
    assert whole[|a|] == '/' && whole[|b|] == '/';
    assert |a| == |b|;
    assert a == whole[..|a|] && b == whole[..|b|];
    assert x == whole[|a| + 1..] && y == whole[|b| + 1..];
  }

  lemma {:induction false} SplitThree(p: string, m: string, e: string, q: string, n: string, f: string)
    requires '/' !in p && '/' !in m && '/' !in q && '/' !in n
    requires p + "/" + m + "/" + e == q + "/" + n + "/" + f
    ensures p == q && m == n && e == f
  {
    assert p + "/" + m + "/" + e == p + "/" + (m + "/" + e) && q + "/" + n + "/" + f == q + "/" + (n + "/" + f);
    SplitAtSlash(p, m + "/" + e, q, n + "/" + f);
    SplitAtSlash(m, e, n, f);
  }

  /** Two different buckets never share a key, whatever `/` and `%` their parts contain. */
  lemma {:induction false} KeyInjective(b: Bucket, c: Bucket)
    requires Key(b) == Key(c)
    ensures b == c
  {
    SplitThree(Escape(b.provider), Escape(b.model), Escape(b.effort), Escape(c.provider), Escape(c.model),
               Escape(c.effort));
    EscapeInjective(b.provider, c.provider);
    EscapeInjective(b.model, c.model);
    EscapeInjective(b.effort, c.effort);
  }

  /** The key prefix shared by all Claude buckets of one model. */
  function ModelPrefix(model: string): string {
    Escape(ANTHROPIC) + "/" + Escape(model) + "/"
  }

  lemma {:induction false} PrefixOfThree(p: string, m: string, e: string, n: string)
    requires '/' !in m && '/' !in n
    ensures p + "/" + n + "/" <= p + "/" + m + "/" + e <==> n == m
  {
    var whole, prefix := p + "/" + m + "/" + e, p + "/" + n + "/";
    if prefix <= whole {
      var rest := whole[|prefix|..];
      assert whole[|p| + 1..] == m + "/" + e;
      assert whole[|p| + 1..] == n + "/" + rest;
      SplitAtSlash(m, e, n, rest);
    }
  }

  /** Among Claude buckets the prefix selects exactly those of the given model. */
  lemma {:induction false} PrefixFindsModel(b: Bucket, model: string)
    requires b.provider == ANTHROPIC
    ensures ModelPrefix(model) <= Key(b) <==> b.model == model
  {
    PrefixOfThree(Escape(ANTHROPIC), Escape(b.model), Escape(b.effort), Escape(model));
    if Escape(b.model) == Escape(model) {
      EscapeInjective(b.model, model);
    }
  }

  // Key order and the range scan

  /** Code point order, which is also the byte order of the UTF-8 encodings. */
  predicate Less(s: string, t: string) {
    t != "" && (s == "" || s[0] < t[0] || (s[0] == t[0] && Less(s[1..], t[1..])))
  }

  lemma {:induction false} LessTotal(s: string, t: string)
    ensures s == t || Less(s, t) || Less(t, s)
    ensures !(Less(s, t) && Less(t, s))
  {
    if s != "" && t != "" {
      LessTotal(s[1..], t[1..]);
      assert s == [s[0]] + s[1..] && t == [t[0]] + t[1..];
    }
  }

  lemma {:induction false} LessTransitive(s: string, t: string, u: string)
    requires Less(s, t) && Less(t, u)
    ensures Less(s, u)
  {
    if s != "" && s[0] == t[0] == u[0] {
      LessTransitive(s[1..], t[1..], u[1..]);
    }
  }

  /** Whatever lies between a prefix and a string that starts with it starts with it too. */
  lemma {:induction false} Sandwich(prefix: string, s: string, t: string)
    requires prefix <= t && !Less(s, prefix) && !Less(t, s)
    ensures prefix <= s
  {
    if prefix != "" {
      assert s != "";
      assert s[0] == prefix[0];
      Sandwich(prefix[1..], s[1..], t[1..]);
      assert s == [s[0]] + s[1..] && prefix == [prefix[0]] + prefix[1..];
    }
  }

  lemma {:induction false} PrefixNotLess(prefix: string, s: string)
    requires prefix <= s
    ensures !Less(s, prefix)
  {
    if prefix != "" {
      PrefixNotLess(prefix[1..], s[1..]);
    }
  }

  lemma {:induction false} LeastExists(keys: set<string>)
    requires keys != {}
    ensures exists k :: k in keys && forall k' | k' in keys :: !Less(k', k)
    decreases |keys|
  {
    var x :| x in keys;
    LessTotal(x, x);
    if keys == {x} {
      assert x in keys;
    } else {
      var rest := keys - {x};
      assert rest != {};
      LeastExists(rest);
      var y :| y in rest && forall k' | k' in rest :: !Less(k', y);
      var least := if Less(x, y) then x else y;
      forall k' | k' in keys
        ensures !Less(k', least)
      {
        LessTotal(x, y);
        if k' != x && Less(k', x) && least == x {
          LessTransitive(k', x, y);
        }
      }
      assert least in keys;
    }
  }

  /** `range(prefix..).take_while(starts_with(prefix))` over an ordered map finds exactly the
      keys that start with the prefix, so the scan may stop at the first key that does not. */
  method ScanPrefix(keys: set<string>, prefix: string) returns (found: seq<string>)
    ensures forall k :: k in found <==> k in keys && prefix <= k
    ensures forall i, j | 0 <= i < j < |found| :: Less(found[i], found[j]) && found[i] != found[j]
  {
    var rest := set k | k in keys && !Less(k, prefix);
    found := [];
    forall k | k in keys && prefix <= k ensures k in rest {
      PrefixNotLess(prefix, k);
    }
    while rest != {}
      invariant rest <= keys
      invariant forall k | k in rest :: !Less(k, prefix)
      invariant forall k | k in keys && prefix <= k :: k in rest || k in found
      invariant forall k | k in found :: k in keys && prefix <= k
      invariant forall k, r | k in found && r in rest :: Less(k, r) && k != r
      invariant forall i, j | 0 <= i < j < |found| :: Less(found[i], found[j]) && found[i] != found[j]
      decreases rest
    {
      LeastExists(rest);
      var k :| k in rest && forall k' | k' in rest :: !Less(k', k);
      if !(prefix <= k) {
        forall t | t in rest && prefix <= t ensures false {
          Sandwich(prefix, k, t);
        }
        return;
      }
      forall r | r in rest - {k} ensures Less(k, r) {
        LessTotal(k, r);
      }
      found := found + [k];
      rest := rest - {k};
    }
  }
}
