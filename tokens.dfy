/**
 * The native-token name codec of quarkchain/utils.py: a name of 1 to 12 characters over
 * [0-9A-Z] is read as a bijective base-36 numeral, so that every id in [0, TOKEN_ID_MAX]
 * names exactly one token.
 */
module Tokens {
  import opened Results
  import opened Utils

  const TOKEN_BASE: nat := 36
  const TOKEN_ID_MAX: nat := 4873763662273663091
  const TOKEN_MAX: string := "ZZZZZZZZZZZZ"

  predicate IsTokenChar(c: char)
  {
    '0' <= c <= '9' || 'A' <= c <= 'Z'
  }

  predicate AllTokenChars(s: string)
  {
    forall i :: 0 <= i < |s| ==> IsTokenChar(s[i])
  }

  /** A name `token_id_encode` accepts. */
  predicate ValidName(name: string)
  {
    1 <= |name| <= 12 && AllTokenChars(name)
  }

  /** `token_char_encode(char)`: '0'..'9' to 0..9, 'A'..'Z' to 10..35, anything else fails. */
  function TokenCharEncode(c: char): (r: Result<nat, Failure>)
    ensures r.Ok? <==> IsTokenChar(c)
    ensures r.Ok? ==> r.value < TOKEN_BASE
    ensures r.Err? ==> r.error == AssertionError("unknown character " + [c])
  {
    if 'A' <= c <= 'Z' then Ok(10 + (c as int - 'A' as int))
    else if '0' <= c <= '9' then Ok(c as int - '0' as int)
    else Err(AssertionError("unknown character " + [c]))
  }

  /** `token_char_decode(id)`: the inverse of TokenCharEncode on 0..35. */
  function TokenCharDecode(id: int): (r: Result<char, Failure>)
    ensures r.Ok? <==> 0 <= id < TOKEN_BASE
    ensures r.Ok? ==> IsTokenChar(r.value)
    ensures r.Err? ==> r.error == AssertionError("invalid char")
  {
    var _ :- Check(id < TOKEN_BASE && id >= 0, "invalid char");
    if id < 10 then Ok(('0' as int + id) as char)
    else Ok(('A' as int + id - 10) as char)
  }

  /** The digits are in character order: '0' < ... < '9' < 'A' < ... < 'Z'. */
  lemma TokenCharOrder(c: char, d: char)
    requires IsTokenChar(c) && IsTokenChar(d)
    ensures c < d <==> TokenCharEncode(c).value < TokenCharEncode(d).value
  {
  }

  lemma TokenCharRoundTrip(c: char)
    requires IsTokenChar(c)
    ensures TokenCharDecode(TokenCharEncode(c).value) == Ok(c)
  {
  }

  lemma TokenCharDecodeRoundTrip(id: int)
    requires 0 <= id < TOKEN_BASE
    ensures TokenCharEncode(TokenCharDecode(id).value) == Ok(id)
  {
  }

  /** The value TokenCharEncode gives a character it accepts. */
  function Digit(c: char): nat
    requires IsTokenChar(c)
  {
    TokenCharEncode(c).value
  }

  /** The character TokenCharDecode gives a digit it accepts. */
  function DigitChar(d: nat): char
    requires d < TOKEN_BASE
  {
    TokenCharDecode(d).value
  }

  function Pow36(k: nat): nat
  {
    if k == 0 then 1 else TOKEN_BASE * Pow36(k - 1)
  }

  /**
   * The bijective base-36 value of a name, most significant character first: appending a
   * character c to s gives (value(s) + 1) * 36 + digit(c).
   */
  function NameValue(name: string): nat
    requires |name| >= 1 && AllTokenChars(name)
  {
    if |name| == 1 then Digit(name[0])
    else (NameValue(name[..|name| - 1]) + 1) * TOKEN_BASE + Digit(name[|name| - 1])
  }

  /** The number of names shorter than n characters (for n >= 1). */
  function NamesShorterThan(n: nat): nat
  {
    if n <= 1 then 0 else (NamesShorterThan(n - 1) + 1) * TOKEN_BASE
  }

  /** `re.match(r"^[0-9A-Z]+$", name)`: `$` also matches just before a final newline. */
  predicate MatchesNamePattern(name: string)
  {
    (|name| >= 1 && AllTokenChars(name))
    || (|name| >= 2 && name[|name| - 1] == '\n' && AllTokenChars(name[..|name| - 1]))
  }

  /** What `token_id_encode(name)` returns or raises. */
  function NameToId(name: string): (r: Result<nat, Failure>)
    ensures r.Ok? <==> ValidName(name)
    ensures r.Ok? ==> r.value <= TOKEN_ID_MAX
    ensures |name| >= 13 ==> r == Err(AssertionError("name too long"))
    ensures |name| < 13 && !MatchesNamePattern(name) ==>
      r == Err(AssertionError("name can only contain 0-9, A-Z"))
    ensures |name| < 13 && MatchesNamePattern(name) && !ValidName(name) ==>
      r == Err(AssertionError("unknown character " + "\n"))
  {
    var _ :- Check(|name| < 13, "name too long");
    var _ :- Check(MatchesNamePattern(name), "name can only contain 0-9, A-Z");
    var _ :- TokenCharEncode(name[|name| - 1]);
    NameValueRange(name);
    NamesShorterThanMonotonic(|name| + 1, 13);
    Ok(NameValue(name))
  }

  /** `token_id_encode(name)`, with its loop over name[-2::-1]. */
  method TokenIdEncode(name: string) returns (r: Result<nat, Failure>)
    ensures r == NameToId(name)
  {
    if |name| >= 13 {
      return Err(AssertionError("name too long"));
    }
    if !MatchesNamePattern(name) {
      return Err(AssertionError("name can only contain 0-9, A-Z"));
    }
    var last := TokenCharEncode(name[|name| - 1]);
    if last.Err? {
      return Err(last.error);
    }
    var id := last.value;
    var base := TOKEN_BASE;
    var i := |name| - 2;
    while i >= 0
      invariant -1 <= i <= |name| - 2
      invariant base == Pow36(|name| - 1 - i)
      invariant id == NameValue(name[i + 1..])
    {
      var c := name[i];
      assert name[i..] == [c] + name[i + 1..];
      PrependDigit(c, name[i + 1..]);
      id := id + base * (Digit(c) + 1);
      base := base * TOKEN_BASE;
      i := i - 1;
    }
    assert name[0..] == name;
    return Ok(id);
  }

  /** Prepending c to a name adds 36^|s| * (digit(c) + 1): the loop's step. */
  lemma {:induction false} PrependDigit(c: char, s: string)
    requires IsTokenChar(c) && |s| >= 1 && AllTokenChars(s)
    ensures NameValue([c] + s) == NameValue(s) + Pow36(|s|) * (Digit(c) + 1)
  {
    var cs := [c] + s;
    if |s| > 1 {
      var init := s[..|s| - 1];
      assert cs[..|cs| - 1] == [c] + init;
      assert cs[|cs| - 1] == s[|s| - 1];
      PrependDigit(c, init);
      var a, p, d, l := NameValue(init), Pow36(|init|), Digit(c) + 1, Digit(s[|s| - 1]);
      var pd := p * d;
      assert NameValue([c] + init) == a + pd;
      assert NameValue(cs) == (a + pd + 1) * 36 + l;
      assert NameValue(s) == (a + 1) * 36 + l;
      assert Pow36(|s|) == 36 * p;
      MulAssoc(36, p, d);
    } else {
      assert cs[..1] == [c];
    }
  }

  lemma MulAssoc(x: int, y: int, z: int)
    ensures (x * y) * z == x * (y * z)
  {
  }

  /** A name of n characters has a value in [NamesShorterThan(n), NamesShorterThan(n + 1)). */
  lemma {:induction false} NameValueRange(name: string)
    requires |name| >= 1 && AllTokenChars(name)
    ensures NamesShorterThan(|name|) <= NameValue(name) < NamesShorterThan(|name| + 1)
  {
    if |name| > 1 {
      NameValueRange(name[..|name| - 1]);
    }
  }

  lemma {:induction false} NamesShorterThanMonotonic(m: nat, n: nat)
    requires 1 <= m <= n
    ensures NamesShorterThan(m) <= NamesShorterThan(n)
    ensures m < n ==> NamesShorterThan(m) < NamesShorterThan(n)
  {
    if m < n {
      NamesShorterThanMonotonic(m, n - 1);
    }
  }

  /** TOKEN_ID_MAX is the last id of a 12-character name. */
  lemma TokenIdMaxIsLastTwelveCharId()
    ensures TOKEN_ID_MAX == NamesShorterThan(13) - 1
  {
  }

  /** The spec of `token_id_decode`'s loop: the digits of id, most significant first. */
  function IdToDigits(id: nat): string
    decreases id
  {
    if id < TOKEN_BASE then [DigitChar(id)]
    else IdToDigits(id / TOKEN_BASE - 1) + [DigitChar(id % TOKEN_BASE)]
  }

  /** What `token_id_decode(id)` returns or raises. */
  function IdToName(id: int): (r: Result<string, Failure>)
    ensures r.Ok? <==> 0 <= id <= TOKEN_ID_MAX
    ensures r.Err? ==> r.error == AssertionError("id too big or negative")
    ensures r.Ok? ==> ValidName(r.value)
  {
    var _ :- Check(id >= 0 && id <= TOKEN_ID_MAX, "id too big or negative");
    DigitsAreValidName(id);
    Ok(IdToDigits(id))
  }

  /** `s` in reverse order, peeling off the last element. */
  function Reverse(s: string): (r: string)
    ensures |r| == |s|
  {
    if |s| == 0 then [] else [s[|s| - 1]] + Reverse(s[..|s| - 1])
  }

  /** The digits still to be produced while x >= 0 (none once x is -1). */
  function Pending(x: int): string
  {
    if x >= 0 then IdToDigits(x) else []
  }

  /** One iteration of the decode loop peels off the least significant digit. */
  lemma PendingStep(x: nat)
    ensures Pending(x) == Pending(x / TOKEN_BASE - 1) + [DigitChar(x % TOKEN_BASE)]
  {
  }

  lemma ReverseAppend(s: string, c: char)
    ensures Reverse(s + [c]) == [c] + Reverse(s)
  {
    assert (s + [c])[..|s|] == s;
  }

  lemma DecodeLoopStart(id: nat)
    ensures IdToDigits(id) == Pending(id / TOKEN_BASE - 1) + Reverse([DigitChar(id % TOKEN_BASE)])
  {
    PendingStep(id);
  }

  lemma DecodeLoopStep(id: nat, x: nat, name: string)
    requires IdToDigits(id) == Pending(x) + Reverse(name)
    ensures IdToDigits(id) == Pending(x / TOKEN_BASE - 1) + Reverse(name + [DigitChar(x % TOKEN_BASE)])
  {
    var c := DigitChar(x % TOKEN_BASE);
    PendingStep(x);
    ReverseAppend(name, c);
    MoveDigit(IdToDigits(id), Pending(x), Pending(x / TOKEN_BASE - 1), c, Reverse(name), Reverse(name + [c]));
  }

  /** The invariant's sequence algebra: a digit moves from the pending part to the reversed part. */
  lemma MoveDigit(all: string, pending: string, rest: string, c: char, done: string, done': string)
    requires all == pending + done && pending == rest + [c] && done' == [c] + done
    ensures all == rest + done'
  {
  }

  lemma DecodeLoopDone(id: int, name: string)
    requires 0 <= id <= TOKEN_ID_MAX
    requires IdToDigits(id) == Pending(-1) + Reverse(name)
    ensures IdToName(id) == Ok(Reverse(name))
  {
    assert IdToDigits(id) == Reverse(name);
    assert Check(id >= 0 && id <= TOKEN_ID_MAX, "id too big or negative").Ok?;
  }

  /** `token_id_decode(id)`: collect digits least significant first, then reverse. */
  method TokenIdDecode(id: int) returns (r: Result<string, Failure>)
    ensures r == IdToName(id)
  {
    if !(id >= 0 && id <= TOKEN_ID_MAX) {
      return Err(AssertionError("id too big or negative"));
    }
    var name := [DigitChar(id % TOKEN_BASE)];
    var x := id / TOKEN_BASE - 1;
    DecodeLoopStart(id);
    while x >= 0
      invariant x >= -1
      invariant IdToDigits(id) == Pending(x) + Reverse(name)
      decreases x + 1
    {
      DecodeLoopStep(id, x, name);
      name := name + [DigitChar(x % TOKEN_BASE)];
      x := x / TOKEN_BASE - 1;
    }
    DecodeLoopDone(id, name);
    return Ok(Reverse(name));
  }

  lemma {:induction false} DigitsLength(id: nat)
    ensures |IdToDigits(id)| >= 1 && AllTokenChars(IdToDigits(id))
    decreases id
  {
    if id >= TOKEN_BASE {
      DigitsLength(id / TOKEN_BASE - 1);
    }
  }

  /** Reading the digits of id back gives id. */
  lemma {:induction false} DigitsValue(id: nat)
    ensures |IdToDigits(id)| >= 1 && AllTokenChars(IdToDigits(id))
    ensures NameValue(IdToDigits(id)) == id
    decreases id
  {
    DigitsLength(id);
    if id >= TOKEN_BASE {
      var q := id / TOKEN_BASE - 1;
      var s := IdToDigits(id);
      DigitsValue(q);
      assert s[..|s| - 1] == IdToDigits(q);
      TokenCharDecodeRoundTrip(id % TOKEN_BASE);
    } else {
      TokenCharDecodeRoundTrip(id);
    }
  }

  /** Writing the value of a name as digits gives the name back. */
  lemma {:induction false} ValueDigits(name: string)
    requires |name| >= 1 && AllTokenChars(name)
    ensures IdToDigits(NameValue(name)) == name
  {
    var n := |name|;
    TokenCharRoundTrip(name[n - 1]);
    if n > 1 {
      var init := name[..n - 1];
      ValueDigits(init);
      var v := NameValue(name);
      assert v / TOKEN_BASE - 1 == NameValue(init);
      assert v % TOKEN_BASE == Digit(name[n - 1]);
      assert init + [name[n - 1]] == name;
    }
  }

  /**
   * The converse of NameValueRange: every id from NamesShorterThan(n) below
   * NamesShorterThan(n + 1) is the value of a name of exactly n characters.
   */
  lemma RangeIsNamesOfLength(n: nat, id: nat)
    requires n >= 1 && NamesShorterThan(n) <= id < NamesShorterThan(n + 1)
    ensures |IdToDigits(id)| == n && AllTokenChars(IdToDigits(id)) && NameValue(IdToDigits(id)) == id
  {
    DigitsValue(id);
    var s := IdToDigits(id);
    NameValueRange(s);
    if |s| < n {
      NamesShorterThanMonotonic(|s| + 1, n);
    } else if |s| > n {
      NamesShorterThanMonotonic(n + 1, |s|);
    }
  }

  lemma DigitsAreValidName(id: nat)
    requires id <= TOKEN_ID_MAX
    ensures ValidName(IdToDigits(id))
  {
    DigitsValue(id);
    var s := IdToDigits(id);
    NameValueRange(s);
    if |s| > 12 {
      NamesShorterThanMonotonic(13, |s|);
    }
  }

  /** Every accepted name decodes back from its id. */
  lemma NameRoundTrip(name: string)
    requires NameToId(name).Ok?
    ensures IdToName(NameToId(name).value) == Ok(name)
  {
    ValueDigits(name);
  }

  /** Every id in range encodes back from its name. */
  lemma IdRoundTrip(id: int)
    requires 0 <= id <= TOKEN_ID_MAX
    ensures NameToId(IdToName(id).value) == Ok(id)
  {
    DigitsValue(id);
    DigitsAreValidName(id);
  }

  /** The name of n 'Z's has the largest value of any n-character name. */
  lemma {:induction false} AllZValue(s: string)
    requires |s| >= 1 && forall i :: 0 <= i < |s| ==> s[i] == 'Z'
    ensures AllTokenChars(s) && NameValue(s) == NamesShorterThan(|s| + 1) - 1
  {
    if |s| > 1 {
      AllZValue(s[..|s| - 1]);
    }
  }

  /** "ZZZZZZZZZZZZ" encodes to TOKEN_ID_MAX. */
  lemma TokenMaxEncodesToIdMax()
    ensures NameToId(TOKEN_MAX) == Ok(TOKEN_ID_MAX)
  {
    AllZValue(TOKEN_MAX);
  }
}
