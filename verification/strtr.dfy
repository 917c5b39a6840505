/**
 * PHP's `strtr($subject, $pairs)` with an array of pairs: one left-to-right
 * pass that, at each position, replaces the LONGEST key found there and never
 * rescans replaced text. Empty keys never match.
 */
module Strtr {
  import opened Wrappers

  /** An ordered list of (key, replacement) pairs, the PHP array passed to `strtr`. */
  type Tokens = seq<(string, string)>

  /** A non-empty `key` occurs at the start of `s`. */
  predicate MatchesAt(key: string, s: string) {
    0 < |key| <= |s| && s[..|key|] == key
  }

  /**
   * The pair whose key is the longest one occurring at the start of `s`; on a
   * tie the later pair wins, as a later duplicate key overrides an earlier one
   * in a PHP array.
   */
  function LongestMatch(s: string, tokens: Tokens): (r: Option<(string, string)>)
    ensures r.Some? ==> r.value in tokens && MatchesAt(r.value.0, s)
    ensures r.Some? ==> forall t :: t in tokens && MatchesAt(t.0, s) ==> |t.0| <= |r.value.0|
    ensures r.None? <==> forall t :: t in tokens ==> !MatchesAt(t.0, s)
  {
    if tokens == [] then None
    else
      var rest := LongestMatch(s, tokens[1..]);
      assert forall t :: t in tokens ==> t == tokens[0] || t in tokens[1..];
      if MatchesAt(tokens[0].0, s) && (rest.None? || |rest.value.0| < |tokens[0].0|)
      then Some(tokens[0])
      else rest
  }

  /** `strtr($s, $tokens)`. */
  function Apply(s: string, tokens: Tokens): (r: string)
    decreases |s|
  {
    if s == [] then []
    else
      match LongestMatch(s, tokens)
      case Some(t) => t.1 + Apply(s[|t.0|..], tokens)
      case None => [s[0]] + Apply(s[1..], tokens)
  }

  /** The replacement `tokens` gives for `key`; the last pair wins. */
  function Lookup(tokens: Tokens, key: string): (r: Option<string>)
    ensures r.Some? <==> exists t :: t in tokens && t.0 == key
    ensures r.Some? ==> (key, r.value) in tokens
  {
    if tokens == [] then None
    else
      var rest := Lookup(tokens[1..], key);
      assert forall t :: t in tokens ==> t == tokens[0] || t in tokens[1..];
      if rest.Some? then rest
      else if tokens[0].0 == key then Some(tokens[0].1)
      else None
  }

  /** No key matches where the text starts with a character no key starts with. */
  lemma NoMatchAtForeignChar(s: string, tokens: Tokens)
    requires s != []
    requires forall t :: t in tokens && t.0 != [] ==> t.0[0] != s[0]
    ensures LongestMatch(s, tokens).None?
  {
    forall t | t in tokens
      ensures !MatchesAt(t.0, s)
    {
      if t.0 != [] && |t.0| <= |s| {
        assert s[..|t.0|][0] == s[0];
      }
    }
  }

  /** Literal text in front of a template passes through; `strtr` works on what follows. */
  lemma {:induction false} ApplyLiteralPrefix(lit: string, rest: string, tokens: Tokens)
    requires forall t :: t in tokens && t.0 != [] ==> t.0[0] !in lit
    ensures Apply(lit + rest, tokens) == lit + Apply(rest, tokens)
  {
    if lit != [] {
      ApplyForeignHead(lit, rest, tokens);
      ForeignTail(lit, tokens);
      ApplyLiteralPrefix(lit[1..], rest, tokens);
      ConsAppend(lit, Apply(rest, tokens));
    } else {
      assert lit + rest == rest;
    }
  }

  lemma ConsAppend(lit: string, tail: string)
    requires lit != []
    ensures [lit[0]] + (lit[1..] + tail) == lit + tail
  {
    assert lit == [lit[0]] + lit[1..];
  }

  /** A first character no key starts with is copied, and `strtr` goes on with the rest. */
  lemma ApplyForeignHead(lit: string, rest: string, tokens: Tokens)
    requires lit != []
    requires forall t :: t in tokens && t.0 != [] ==> t.0[0] !in lit
    ensures Apply(lit + rest, tokens) == [lit[0]] + Apply(lit[1..] + rest, tokens)
  {
    var s := lit + rest;
    assert s[0] == lit[0];
    NoMatchAtForeignChar(s, tokens);
    assert s[1..] == lit[1..] + rest;
  }

  /** Characters no key starts with stay so in a suffix. */
  lemma ForeignTail(lit: string, tokens: Tokens)
    requires lit != []
    requires forall t :: t in tokens && t.0 != [] ==> t.0[0] !in lit
    ensures forall t :: t in tokens && t.0 != [] ==> t.0[0] !in lit[1..]
  {
    forall t | t in tokens && t.0 != []
      ensures t.0[0] !in lit[1..]
    {
      assert t.0[0] !in lit;
    }
  }

  /** Text in which no key can start passes through `strtr` unchanged. */
  lemma ApplyNoKeyStart(s: string, tokens: Tokens)
    requires forall t :: t in tokens && t.0 != [] ==> t.0[0] !in s
    ensures Apply(s, tokens) == s
  {
    ApplyLiteralPrefix(s, [], tokens);
    assert s + [] == s;
  }

  /**
   * Where `key` is the longest key at the front (any other key found there
   * is shorter), its replacement is emitted and scanning resumes after it.
   */
  lemma ApplyKeyPrefix(key: string, value: string, rest: string, tokens: Tokens)
    requires (key, value) in tokens && key != []
    requires forall t :: t in tokens && MatchesAt(t.0, key + rest) ==> |t.0| < |key| || t == (key, value)
    ensures Apply(key + rest, tokens) == value + Apply(rest, tokens)
  {
    var s := key + rest;
    assert MatchesAt(key, s);
    assert LongestMatch(s, tokens) == Some((key, value));
    assert s[|key|..] == rest;
  }
}
