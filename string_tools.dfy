/** String utilities of the input front end: the tokenizer (with quoted and
    angle-bracket tokens), lower-casing, find-and-replace and the whole-string
    parse of a `size_t`. */
module StringTools {
  import opened Errors

  // ---------------------------------------------------------------------
  // Character classes ("C" locale)
  // ---------------------------------------------------------------------

  /** `isspace`: blank, tab, line feed, vertical tab, form feed, return. */
  predicate IsSpace(c: char) {
    c == ' ' || c == '\t' || c == '\n' || c == '\r' || c as int == 11 || c as int == 12
  }

  predicate IsUpper(c: char) { 'A' <= c <= 'Z' }

  predicate IsDigit(c: char) { '0' <= c <= '9' }

  /** `tolower`: upper-case ASCII letters map to lower case, everything else
      is kept. */
  function LowerChar(c: char): char {
    if IsUpper(c) then (c as int + 32) as char else c
  }

  // ---------------------------------------------------------------------
  // to_lower
  // ---------------------------------------------------------------------

  /** The lower-cased copy of `s`, character by character. */
  function Lower(s: string): string {
    seq(|s|, i requires 0 <= i < |s| => LowerChar(s[i]))
  }

  /** `to_lower`: overwrites each character of a copy with its lower case. */
  method ToLower(str: string) returns (ret: string)
    ensures ret == Lower(str)
    ensures |ret| == |str|
    ensures forall i :: 0 <= i < |ret| ==> !IsUpper(ret[i])
    ensures forall i :: 0 <= i < |str| && !IsUpper(str[i]) ==> ret[i] == str[i]
    ensures forall i :: 0 <= i < |str| && IsUpper(str[i]) ==> ret[i] as int == str[i] as int + 32
    ensures Lower(ret) == ret
  {
    var a := new char[|str|](i requires 0 <= i < |str| => str[i]);
    for i := 0 to a.Length
      invariant forall k :: 0 <= k < i ==> a[k] == LowerChar(str[k])
      invariant forall k :: i <= k < a.Length ==> a[k] == str[k]
    {
      a[i] := LowerChar(a[i]);
    }
    ret := a[..];
    LowerIdempotent(str);
  }

  /** Lower-casing twice is lower-casing once. */
  lemma LowerIdempotent(s: string)
    ensures Lower(Lower(s)) == Lower(s)
  {
    assert forall i :: 0 <= i < |s| ==> Lower(Lower(s))[i] == Lower(s)[i];
  }

  /** The cases of the unit test of `to_lower`. */
  lemma LowerExamples()
    ensures Lower("") == ""
    ensures Lower("hello") == "hello"
    ensures Lower("HeLLo") == "hello"
    ensures Lower("Oops") != "Oops"
    ensures Lower("12345ASDfg") == "12345asdfg"
  {
    assert Lower("Oops")[0] == 'o';
  }

  // ---------------------------------------------------------------------
  // find_replace
  // ---------------------------------------------------------------------

  /** `pat` occurs in `s` starting at position `p`. */
  predicate MatchAt(s: string, pat: string, p: nat) {
    p + |pat| <= |s| && s[p..p + |pat|] == pat
  }

  /** `std::string::find(pat, from)`: the first occurrence of `pat` at or
      after `from`, or None for `npos`. */
  function Find(s: string, pat: string, from: nat): (r: Option<nat>)
    decreases |s| - from
    ensures r.Some? ==> from <= r.value && r.value + |pat| <= |s|
  {
    if from + |pat| > |s| then None
    else if MatchAt(s, pat, from) then Some(from)
    else Find(s, pat, from + 1)
  }

  /** `Find` gives the first occurrence at or after `from`, and None exactly
      when there is none. */
  lemma {:induction false} FindSpec(s: string, pat: string, from: nat)
    ensures var r := Find(s, pat, from);
      (r.Some? ==> MatchAt(s, pat, r.value) && forall p :: from <= p < r.value ==> !MatchAt(s, pat, p)) &&
      (r.None? ==> forall p :: from <= p ==> !MatchAt(s, pat, p))
    decreases |s| - from
  {
    if from + |pat| <= |s| && !MatchAt(s, pat, from) {
      FindSpec(s, pat, from + 1);
    }
  }

  /** The reference meaning of `find_replace`: scanning `s` left to right
      from position `i`, every occurrence of a non-empty `pat` is replaced by
      `rep` and scanning resumes after it, so occurrences never overlap. */
  function ReplacedFrom(s: string, pat: string, rep: string, i: nat): string
    requires |pat| > 0 && i <= |s|
    decreases |s| - i
  {
    if i + |pat| > |s| then s[i..]
    else if MatchAt(s, pat, i) then rep + ReplacedFrom(s, pat, rep, i + |pat|)
    else [s[i]] + ReplacedFrom(s, pat, rep, i + 1)
  }

  /** `s` with every occurrence of `pat` replaced by `rep`; an empty pattern
      changes nothing. */
  function Replaced(s: string, pat: string, rep: string): string {
    if |pat| == 0 then s else ReplacedFrom(s, pat, rep, 0)
  }

  /** A stretch holding no occurrence passes through unchanged. */
  lemma {:induction false} SkipUnmatched(s: string, pat: string, rep: string, i: nat, k: nat)
    requires |pat| > 0 && i <= k <= |s|
    requires forall q :: i <= q < k ==> !MatchAt(s, pat, q)
    ensures ReplacedFrom(s, pat, rep, i) == s[i..k] + ReplacedFrom(s, pat, rep, k)
    decreases k - i
  {
    if i == k {
      assert s[i..k] == [];
    } else if i + |pat| > |s| {
      assert s[i..] == s[i..k] + s[k..];
    } else {
      SkipUnmatched(s, pat, rep, i + 1, k);
      assert [s[i]] + s[i + 1..k] == s[i..k];
    }
  }

  /** With no occurrence at all, `Replaced` is the identity. */
  lemma ReplacedNoMatch(s: string, pat: string, rep: string)
    requires forall p :: 0 <= p ==> !MatchAt(s, pat, p)
    ensures Replaced(s, pat, rep) == s
  {
    if |pat| > 0 {
      SkipUnmatched(s, pat, rep, 0, |s|);
      assert s[0..|s|] == s;
    }
  }

  /** Replacing a pattern by itself changes nothing. */
  lemma {:induction false} ReplacedBySelf(s: string, pat: string, i: nat)
    requires |pat| > 0 && i <= |s|
    ensures ReplacedFrom(s, pat, pat, i) == s[i..]
    decreases |s| - i
  {
    if i + |pat| > |s| {
    } else if MatchAt(s, pat, i) {
      ReplacedBySelf(s, pat, i + |pat|);
      assert s[i..] == s[i..i + |pat|] + s[i + |pat|..];
    } else {
      ReplacedBySelf(s, pat, i + 1);
      assert s[i..] == [s[i]] + s[i + 1..];
    }
  }

  /** One round of the `find_replace` loop: the text up to the occurrence
      found is kept, the occurrence is replaced, and scanning resumes after it. */
  lemma ReplacedAtFind(s: string, pat: string, rep: string, start: nat)
    requires |pat| > 0 && start <= |s| && Find(s, pat, start).Some?
    ensures var p := Find(s, pat, start).value;
      ReplacedFrom(s, pat, rep, start) == s[start..p] + (rep + ReplacedFrom(s, pat, rep, p + |pat|))
  {
    var p := Find(s, pat, start).value;
    FindSpec(s, pat, start);
    SkipUnmatched(s, pat, rep, start, p);
  }

  /** `ReplacedAtFind` with the text already produced in front. */
  lemma ReplaceStep(s: string, pat: string, rep: string, start: nat, acc: string)
    requires |pat| > 0 && start <= |s| && Find(s, pat, start).Some?
    ensures var p := Find(s, pat, start).value;
      acc + ReplacedFrom(s, pat, rep, start) == (acc + s[start..p] + rep) + ReplacedFrom(s, pat, rep, p + |pat|)
  {
    var p := Find(s, pat, start).value;
    ReplacedAtFind(s, pat, rep, start);
    var rest := ReplacedFrom(s, pat, rep, p + |pat|);
    assert acc + (s[start..p] + (rep + rest)) == (acc + s[start..p] + rep) + rest;
  }

  /** Concatenation regroups. */
  lemma ConcatAssoc(a: string, b: string, c: string)
    ensures (a + b) + c == a + (b + c)
  {
  }

  /** After the last occurrence, the tail is copied as it is. */
  lemma ReplacedAfterLast(s: string, pat: string, rep: string, start: nat)
    requires |pat| > 0 && start <= |s| && Find(s, pat, start).None?
    ensures ReplacedFrom(s, pat, rep, start) == s[start..]
  {
    FindSpec(s, pat, start);
    SkipUnmatched(s, pat, rep, start, |s|);
    assert ReplacedFrom(s, pat, rep, |s|) == [];
  }

  /** `find_replace`: appends the text before each occurrence found by
      `find`, then the replacement, and finally the tail. */
  method FindReplace(str: string, find: string, replace: string) returns (ret: string)
    ensures ret == Replaced(str, find, replace)
  {
    if |find| == 0 {
      return str;
    }
    ret := "";
    var start := 0;
    var pos := Find(str, find, start);
    while pos.Some?
      invariant start <= |str|
      invariant pos == Find(str, find, start)
      invariant ret + ReplacedFrom(str, find, replace, start) == Replaced(str, find, replace)
      decreases |str| - start
    {
      var p := pos.value;
      ReplaceStep(str, find, replace, start, ret);
      ret := ret + str[start..p] + replace;
      start := p + |find|;
      pos := Find(str, find, start);
    }
    ReplacedAfterLast(str, find, replace, start);
    ret := ret + str[start..];
  }

  // ---------------------------------------------------------------------
  // cast_string<size_t>
  // ---------------------------------------------------------------------

  /** Range of the C++ `int` that `std::stoi` produces. */
  const IntMin: int := -0x8000_0000
  const IntMax: int := 0x7fff_ffff

  predicate AllDigits(ds: string) {
    forall i :: 0 <= i < |ds| ==> IsDigit(ds[i])
  }

  predicate AllSpaces(w: string) {
    forall i :: 0 <= i < |w| ==> IsSpace(w[i])
  }

  /** The number the decimal digits `s[d..e]` spell. */
  function DigitsValue(s: string, d: nat, e: nat): nat
    requires d <= e <= |s|
    requires forall k :: d <= k < e ==> IsDigit(s[k])
    decreases e - d
  {
    if e == d then 0
    else
      assert IsDigit(s[e - 1]);
      10 * DigitsValue(s, d, e - 1) + (s[e - 1] as int - '0' as int)
  }

  /** The number a string of decimal digits spells. */
  function DecimalValue(ds: string): nat
    requires AllDigits(ds)
  {
    DigitsValue(ds, 0, |ds|)
  }

  /** Equal digits spell equal numbers, wherever they stand. */
  lemma {:induction false} DigitsValueSame(s: string, d: nat, t: string, c: nat, n: nat)
    requires d + n <= |s| && c + n <= |t|
    requires forall k :: d <= k < d + n ==> IsDigit(s[k])
    requires forall k :: c <= k < c + n ==> t[k] == s[d + (k - c)]
    ensures forall k :: c <= k < c + n ==> IsDigit(t[k])
    ensures DigitsValue(s, d, d + n) == DigitsValue(t, c, c + n)
    decreases n
  {
    if n > 0 {
      DigitsValueSame(s, d, t, c, n - 1);
    }
  }

  /** The first position at or after `i` that is not white space. */
  function SkipSpace(s: string, i: nat): (r: nat)
    requires i <= |s|
    decreases |s| - i
    ensures i <= r <= |s|
  {
    if i < |s| && IsSpace(s[i]) then SkipSpace(s, i + 1) else i
  }

  lemma {:induction false} SkipSpaceSpec(s: string, i: nat)
    requires i <= |s|
    ensures var r := SkipSpace(s, i);
      (forall k :: i <= k < r ==> IsSpace(s[k])) && (r == |s| || !IsSpace(s[r]))
    decreases |s| - i
  {
    if i < |s| && IsSpace(s[i]) {
      SkipSpaceSpec(s, i + 1);
    }
  }

  /** The first position at or after `i` that is not a digit. */
  function SkipDigits(s: string, i: nat): (r: nat)
    requires i <= |s|
    decreases |s| - i
    ensures i <= r <= |s|
  {
    if i < |s| && IsDigit(s[i]) then SkipDigits(s, i + 1) else i
  }

  lemma {:induction false} SkipDigitsSpec(s: string, i: nat)
    requires i <= |s|
    ensures var r := SkipDigits(s, i);
      (forall k :: i <= k < r ==> IsDigit(s[k])) && (r == |s| || !IsDigit(s[r]))
    decreases |s| - i
  {
    if i < |s| && IsDigit(s[i]) {
      SkipDigitsSpec(s, i + 1);
    }
  }

  /** `std::stoi(str, &next)`: skips leading white space, reads an optional
      sign and at least one decimal digit, and yields the value with the
      index of the first unused character. No digits is `invalid_argument`;
      a value outside `int` is `out_of_range`. */
  function Stoi(s: string): Result<(int, nat)> {
    var i := SkipSpace(s, 0);
    var d := SignEnd(s, i);
    SkipDigitsSpec(s, d);
    StoiDigits(s, i < d && s[i] == '-', d, SkipDigits(s, d))
  }

  /** The position after an optional `+` or `-` at `i`. */
  function SignEnd(s: string, i: nat): (d: nat)
    requires i <= |s|
    ensures i <= d <= |s|
  {
    if i < |s| && (s[i] == '-' || s[i] == '+') then i + 1 else i
  }

  /** The value of the digits `s[d..e]`, negated when a minus sign was read. */
  function StoiDigits(s: string, negative: bool, d: nat, e: nat): Result<(int, nat)>
    requires d <= e <= |s|
    requires forall k :: d <= k < e ==> IsDigit(s[k])
  {
    if e == d then Err(InvalidArgument("stoi"))
    else
      var magnitude: int := DigitsValue(s, d, e);
      var v := if negative then -magnitude else magnitude;
      if v < IntMin || IntMax < v then Err(OutOfRange("stoi")) else Ok((v, e))
  }

  /** `SkipSpace` stops at the first position that is not white space. */
  lemma SkipSpaceIs(s: string, i: nat, j: nat)
    requires i <= j <= |s|
    requires forall k :: i <= k < j ==> IsSpace(s[k])
    requires j == |s| || !IsSpace(s[j])
    ensures SkipSpace(s, i) == j
  {
    SkipSpaceSpec(s, i);
  }

  /** `SkipDigits` stops at the first position that is not a digit. */
  lemma SkipDigitsIs(s: string, i: nat, j: nat)
    requires i <= j <= |s|
    requires forall k :: i <= k < j ==> IsDigit(s[k])
    requires j == |s| || !IsDigit(s[j])
    ensures SkipDigits(s, i) == j
  {
    SkipDigitsSpec(s, i);
  }

  /** `cast_string<size_t>`: `stoi` must consume the whole string and give a
      non-negative value; its `invalid_argument` becomes `bad_cast`, while its
      `out_of_range` is not caught and propagates. */
  function CastSize(str: string): (r: Result<nat>)
    ensures r.Ok? ==> r.value <= IntMax
    ensures r.Err? ==> r.error == BadCast || r.error.OutOfRange?
  {
    match Stoi(str)
    case Err(e) => if e.InvalidArgument? then Err(BadCast) else Err(e)
    case Ok((v, next)) =>
      if next != |str| then Err(BadCast)
      else if v < 0 then Err(BadCast)
      else Ok(v)
  }

  /** Only white space, signs and digits are accepted, and the string must
      end in a digit: nothing may trail the number. */
  lemma CastSizeShape(str: string)
    requires CastSize(str).Ok?
    ensures |str| > 0 && IsDigit(str[|str| - 1])
    ensures forall k :: 0 <= k < |str| ==>
              IsSpace(str[k]) || IsDigit(str[k]) || str[k] == '-' || str[k] == '+'
  {
    var i := SkipSpace(str, 0);
    var d := SignEnd(str, i);
    SkipSpaceSpec(str, 0);
    SkipDigitsSpec(str, d);
  }

  lemma DigitsAfter(pre: string, ds: string)
    requires AllDigits(ds)
    ensures forall k :: |pre| <= k < |pre + ds| ==> IsDigit((pre + ds)[k])
  {
    forall k | |pre| <= k < |pre + ds| ensures IsDigit((pre + ds)[k]) {
      assert (pre + ds)[k] == ds[k - |pre|];
    }
  }

  /** A numeral of the accepted shape — white space, an optional sign, digits —
      is read as its decimal value; a minus sign is accepted only on zero. */
  lemma CastSizeAccepts(w: string, sign: string, ds: string)
    requires AllSpaces(w) && |sign| <= 1 && (|sign| == 1 ==> sign[0] == '+' || sign[0] == '-')
    requires |ds| > 0 && AllDigits(ds) && DecimalValue(ds) <= IntMax
    ensures CastSize(w + sign + ds) ==
              if sign == "-" && DecimalValue(ds) != 0 then Err(BadCast) else Ok(DecimalValue(ds))
  {
    var s := w + sign + ds;
    var d := |w| + |sign|;
    var v: int := DecimalValue(ds);
    var neg := sign == "-";
    StoiAccepts(w, sign, ds);
    DigitsValueSame(ds, 0, s, d, |ds|);
    assert StoiDigits(s, neg, d, |s|) == Ok((if neg then -v else v, |s|));
  }

  lemma StoiAccepts(w: string, sign: string, ds: string)
    requires AllSpaces(w) && |sign| <= 1 && (|sign| == 1 ==> sign[0] == '+' || sign[0] == '-')
    requires |ds| > 0 && AllDigits(ds)
    ensures var s := w + sign + ds;
      Stoi(s) == StoiDigits(s, sign == "-", |w| + |sign|, |s|)
  {
    var pre := w + sign;
    var s := pre + ds;
    var i := |w|;
    assert forall k :: 0 <= k < |w| ==> s[k] == w[k];
    assert s[i] == if |sign| == 0 then ds[0] else sign[0];
    SkipSpaceIs(s, 0, i);
    assert SignEnd(s, i) == |pre|;
    DigitsAfter(pre, ds);
    SkipDigitsIs(s, |pre|, |s|);
  }

  /** The decimal numeral of `n`, most significant digit first. */
  function NatToString(n: nat): (r: string)
    ensures |r| > 0 && AllDigits(r)
  {
    var digit := (n % 10 + '0' as int) as char;
    if n < 10 then [digit] else NatToString(n / 10) + [digit]
  }

  lemma {:induction false} NatToStringValue(n: nat)
    ensures DecimalValue(NatToString(n)) == n
  {
    var r := NatToString(n);
    if n >= 10 {
      var q := NatToString(n / 10);
      NatToStringValue(n / 10);
      DigitsValueSame(q, 0, r, 0, |q|);
      assert r[|r| - 1] as int - '0' as int == n % 10;
      assert DigitsValue(r, 0, |r|) == 10 * DigitsValue(r, 0, |q|) + n % 10;
    }
  }

  /** Round trip: every `int`-sized count printed in decimal parses back. */
  lemma CastSizeRoundTrip(n: nat)
    requires n <= IntMax
    ensures CastSize(NatToString(n)) == Ok(n)
  {
    NatToStringValue(n);
    CastSizeAccepts("", "", NatToString(n));
    assert "" + "" + NatToString(n) == NatToString(n);
  }

  /** The accepted cases of the unit test of `cast_string<size_t>`. */
  lemma CastSizeAcceptedExamples()
    ensures CastSize("4") == Ok(4)
    ensures CastSize("0") == Ok(0)
  {
    CastSizeRoundTrip(4);
    assert NatToString(4) == "4";
    CastSizeRoundTrip(0);
    assert NatToString(0) == "0";
  }

  /** A minus sign is refused on a non-zero count. */
  lemma CastSizeRejectsNegative()
    ensures CastSize("-1") == Err(BadCast)
  {
    assert DecimalValue("1") == 1;
    CastSizeAccepts("", "-", "1");
    assert "" + "-" + "1" == "-1";
  }

  /** A string without leading digits, or with trailing text, is refused. */
  lemma CastSizeRejectsGarbage()
    ensures CastSize("a") == Err(BadCast)
    ensures CastSize("5-1") == Err(BadCast)
  {
    assert !IsSpace('a') && !IsDigit('a') && !IsSpace('5') && !IsDigit('-');
    SkipSpaceIs("a", 0, 0);
    SkipDigitsIs("a", 0, 0);
    SkipSpaceIs("5-1", 0, 0);
    SkipDigitsIs("5-1", 0, 1);
  }

  // ---------------------------------------------------------------------
  // next_token / tokenize
  // ---------------------------------------------------------------------

  /** The end of the run of non-space characters starting at `i`. */
  function SkipWord(s: string, i: nat): (r: nat)
    requires i <= |s|
    decreases |s| - i
    ensures i <= r <= |s|
  {
    if i < |s| && !IsSpace(s[i]) then SkipWord(s, i + 1) else i
  }

  lemma {:induction false} SkipWordSpec(s: string, i: nat)
    requires i <= |s|
    ensures var r := SkipWord(s, i);
      (forall k :: i <= k < r ==> !IsSpace(s[k])) && (r == |s| || IsSpace(s[r]))
    decreases |s| - i
  {
    if i < |s| && !IsSpace(s[i]) {
      SkipWordSpec(s, i + 1);
    }
  }

  /** `std::find`: the first position at or after `i` holding `c`, or `|s|`
      for the end iterator. */
  function FindChar(s: string, c: char, i: nat): (r: nat)
    requires i <= |s|
    decreases |s| - i
    ensures i <= r <= |s|
  {
    if i == |s| || s[i] == c then i else FindChar(s, c, i + 1)
  }

  lemma {:induction false} FindCharSpec(s: string, c: char, i: nat)
    requires i <= |s|
    ensures var r := FindChar(s, c, i);
      (forall k :: i <= k < r ==> s[k] != c) && (r == |s| || s[r] == c)
    decreases |s| - i
  {
    if i < |s| && s[i] != c {
      FindCharSpec(s, c, i + 1);
    }
  }

  /** The quote that closes a quoted token whose text starts at `k`: the first
      `"` at or after `k` not preceded by a backslash, or `|s|` if none. */
  function ClosingQuote(s: string, k: nat): (r: nat)
    requires 1 <= k <= |s|
    decreases |s| - k
    ensures k <= r <= |s|
  {
    if k == |s| || (s[k] == '"' && s[k - 1] != '\\') then k else ClosingQuote(s, k + 1)
  }

  lemma {:induction false} ClosingQuoteSpec(s: string, k: nat)
    requires 1 <= k <= |s|
    ensures var r := ClosingQuote(s, k);
      (forall c :: k <= c < r && s[c] == '"' ==> s[c - 1] == '\\') &&
      (r < |s| ==> s[r] == '"' && s[r - 1] != '\\')
    decreases |s| - k
  {
    if k < |s| && !(s[k] == '"' && s[k - 1] != '\\') {
      ClosingQuoteSpec(s, k + 1);
    }
  }

  /** `next_token` as a function of the position: the token found at or after
      `i` and the position just past it, or None when only white space is
      left or the token is unterminated. */
  function TokenAt(s: string, i: nat): (r: Option<(string, nat)>)
    requires i <= |s|
    ensures r.Some? ==> i < r.value.1 <= |s|
  {
    var k := SkipSpace(s, i);
    if k == |s| then None
    else if s[k] == '"' then
      var q := ClosingQuote(s, k + 1);
      if q == |s| then None else Some((s[k + 1..q], q + 1))
    else if s[k] == '<' then
      var b := FindChar(s, '>', k);
      if b == |s| then None else Some((s[k..b + 1], b + 1))
    else
      var e := SkipWord(s, k);
      Some((s[k..e], e))
  }

  /** `tokenize` as a function: the tokens from position `i` on, in order. */
  function Tokens(s: string, i: nat): seq<string>
    requires i <= |s|
    decreases |s| - i
  {
    match TokenAt(s, i)
    case None => []
    case Some((t, j)) => [t] + Tokens(s, j)
  }

  /** The white-space skipping loop of `next_token`. */
  method ScanSpaces(s: string, start: nat) returns (next: nat)
    requires start <= |s|
    ensures next == SkipSpace(s, start)
  {
    next := start;
    while next < |s| && IsSpace(s[next])
      invariant start <= next <= |s|
      invariant SkipSpace(s, next) == SkipSpace(s, start)
      decreases |s| - next
    {
      next := next + 1;
    }
  }

  /** The quote-finding loop of `next_token`: repeats `find` while the quote
      found is escaped by a backslash. */
  method ScanQuoted(s: string, open: nat) returns (quote: nat)
    requires open < |s|
    ensures quote == ClosingQuote(s, open + 1)
  {
    quote := FindChar(s, '"', open + 1);
    FindCharSpec(s, '"', open + 1);
    QuoteSkip(s, open + 1, quote);
    while quote < |s| && s[quote - 1] == '\\'
      invariant open < quote <= |s|
      invariant quote == |s| || s[quote] == '"'
      invariant ClosingQuote(s, quote) == ClosingQuote(s, open + 1)
      decreases |s| - quote
    {
      var after := FindChar(s, '"', quote + 1);
      FindCharSpec(s, '"', quote + 1);
      QuoteSkip(s, quote + 1, after);
      quote := after;
    }
  }

  /** The word-reading loop of `next_token`. */
  method ScanWord(s: string, first: nat) returns (next: nat)
    requires first <= |s|
    ensures next == SkipWord(s, first)
  {
    next := first;
    while next < |s| && !IsSpace(s[next])
      invariant first <= next <= |s|
      invariant SkipWord(s, next) == SkipWord(s, first)
      decreases |s| - next
    {
      next := next + 1;
    }
  }

  /** `next_token`: skips white space, then reads a quoted token (without
      its quotes; an escaped quote does not close it), an angle-bracket token
      (with both brackets) or a run of non-space characters. */
  method NextToken(s: string, start: nat) returns (found: bool, tok: string, next: nat)
    requires start <= |s|
    ensures found <==> TokenAt(s, start).Some?
    ensures found ==> TokenAt(s, start) == Some((tok, next))
  {
    tok := "";
    next := ScanSpaces(s, start);
    if next == |s| {
      return false, tok, next;
    }
    if s[next] == '"' {
      var quote := ScanQuoted(s, next);
      if quote == |s| {
        return false, tok, next;
      }
      tok := s[next + 1..quote];
      next := quote + 1;
    } else if s[next] == '<' {
      var bracket := FindChar(s, '>', next);
      if bracket == |s| {
        return false, tok, next;
      }
      tok := s[next..bracket + 1];
      next := bracket + 1;
    } else {
      var first := next;
      next := ScanWord(s, first);
      tok := s[first..next];
    }
    found := true;
  }

  /** Characters that are not quotes cannot close a quoted token. */
  lemma {:induction false} QuoteSkip(s: string, a: nat, b: nat)
    requires 1 <= a <= b <= |s|
    requires forall c :: a <= c < b ==> s[c] != '"'
    ensures ClosingQuote(s, a) == ClosingQuote(s, b)
    decreases b - a
  {
    if a < b {
      QuoteSkip(s, a + 1, b);
    }
  }

  /** `tokenize`: collects tokens until `next_token` fails. */
  method Tokenize(str: string) returns (ret: seq<string>)
    ensures ret == Tokens(str, 0)
  {
    ret := [];
    var next := 0;
    while true
      invariant next <= |str|
      invariant ret + Tokens(str, next) == Tokens(str, 0)
      decreases |str| - next
    {
      var found, tok, after := NextToken(str, next);
      if !found {
        break;
      }
      ret := ret + [tok];
      next := after;
    }
  }

  /** The characters of `s[i..]` that are not white space, in order. */
  function Squeezed(s: string, i: nat): string
    requires i <= |s|
    decreases |s| - i
  {
    if i == |s| then [] else (if IsSpace(s[i]) then [] else [s[i]]) + Squeezed(s, i + 1)
  }

  lemma {:induction false} SqueezedSpaces(s: string, i: nat, k: nat)
    requires i <= k <= |s|
    requires forall j :: i <= j < k ==> IsSpace(s[j])
    ensures Squeezed(s, i) == Squeezed(s, k)
    decreases k - i
  {
    if i < k {
      SqueezedSpaces(s, i + 1, k);
    }
  }

  lemma {:induction false} SqueezedWord(s: string, k: nat, e: nat)
    requires k <= e <= |s|
    requires forall j :: k <= j < e ==> !IsSpace(s[j])
    ensures Squeezed(s, k) == s[k..e] + Squeezed(s, e)
    decreases e - k
  {
    if k < e {
      SqueezedWord(s, k + 1, e);
      assert Squeezed(s, k) == [s[k]] + Squeezed(s, k + 1);
      assert s[k..e] == [s[k]] + s[k + 1..e];
      assert [s[k]] + (s[k + 1..e] + Squeezed(s, e)) == ([s[k]] + s[k + 1..e]) + Squeezed(s, e);
    }
  }

  /** The tokens one after another, with nothing between them. */
  function Concat(ts: seq<string>): string {
    if |ts| == 0 then [] else ts[0] + Concat(ts[1..])
  }

  /** No quote and no opening angle bracket from position `i` on, so every
      token there is a plain word. */
  predicate PlainText(s: string, i: nat)
    requires i <= |s|
  {
    forall k :: i <= k < |s| ==> s[k] != '"' && s[k] != '<'
  }

  /** A plain token: non-empty, with no white space in it. */
  predicate Word(t: string) {
    |t| > 0 && forall m :: 0 <= m < |t| ==> !IsSpace(t[m])
  }

  /** On plain text the first token is the first run of non-space characters. */
  lemma PlainTokenAt(s: string, i: nat)
    requires i <= |s| && PlainText(s, i)
    ensures var k := SkipSpace(s, i);
      k < |s| ==> TokenAt(s, i) == Some((s[k..SkipWord(s, k)], SkipWord(s, k)))
  {
  }

  /** On plain text, the tokens are the white-space separated runs in order:
      each is a `Word`, and together they are the text with its white space
      removed. */
  lemma {:induction false} PlainTokens(s: string, i: nat)
    requires i <= |s| && PlainText(s, i)
    ensures forall n :: 0 <= n < |Tokens(s, i)| ==> Word(Tokens(s, i)[n])
    ensures Concat(Tokens(s, i)) == Squeezed(s, i)
    decreases |s| - i
  {
    var k := SkipSpace(s, i);
    SkipSpaceSpec(s, i);
    SqueezedSpaces(s, i, k);
    if k < |s| {
      var e := SkipWord(s, k);
      SkipWordSpec(s, k);
      PlainTokenAt(s, i);
      var t := s[k..e];
      var rest := Tokens(s, e);
      assert Tokens(s, i) == [t] + rest;
      PlainTokens(s, e);
      SqueezedWord(s, k, e);
      assert Word(t);
      assert ([t] + rest)[1..] == rest;
    }
  }

  /** An unterminated quote stops tokenizing: nothing from it on is a token. */
  lemma UnterminatedQuote(s: string, i: nat)
    requires i <= |s|
    requires SkipSpace(s, i) < |s| && s[SkipSpace(s, i)] == '"'
    requires forall c :: SkipSpace(s, i) < c < |s| && s[c] == '"' ==> s[c - 1] == '\\'
    ensures Tokens(s, i) == []
  {
    var k := SkipSpace(s, i);
    ClosingQuoteSpec(s, k + 1);
    assert ClosingQuote(s, k + 1) == |s|;
  }

  /** An unterminated angle bracket stops tokenizing as well. */
  lemma UnterminatedBracket(s: string, i: nat)
    requires i <= |s|
    requires SkipSpace(s, i) < |s| && s[SkipSpace(s, i)] == '<'
    requires forall c :: SkipSpace(s, i) <= c < |s| ==> s[c] != '>'
    ensures Tokens(s, i) == []
  {
    FindCharSpec(s, '>', SkipSpace(s, i));
    assert FindChar(s, '>', SkipSpace(s, i)) == |s|;
  }

  /** Words are the runs between white space (unit test of `tokenize`). */
  lemma TokenizeWords()
    ensures Tokens("Hello, world!", 0) == ["Hello,", "world!"]
  {
    var s := "Hello, world!";
    assert SkipSpace(s, 0) == 0;
    assert SkipWord(s, 6) == 6;
    assert SkipWord(s, 5) == 6;
    assert SkipWord(s, 4) == 6;
    assert SkipWord(s, 3) == 6;
    assert SkipWord(s, 2) == 6;
    assert SkipWord(s, 1) == 6;
    assert SkipWord(s, 0) == 6;
    assert TokenAt(s, 0) == Some((s[0..6], 6));
    assert SkipSpace(s, 7) == 7;
    assert SkipSpace(s, 6) == 7;
    assert SkipWord(s, 13) == 13;
    assert SkipWord(s, 12) == 13;
    assert SkipWord(s, 11) == 13;
    assert SkipWord(s, 10) == 13;
    assert SkipWord(s, 9) == 13;
    assert SkipWord(s, 8) == 13;
    assert SkipWord(s, 7) == 13;
    assert TokenAt(s, 6) == Some((s[7..13], 13));
    assert SkipSpace(s, 13) == 13;
    assert TokenAt(s, 13) == None;
    assert s[0..6] == "Hello," && s[7..13] == "world!";
  }

  /** A token opened by `<` runs to the first `>` and keeps both brackets,
      blanks and quotes inside included. */
  lemma BracketToken(s: string, i: nat, b: nat)
    requires i <= |s|
    requires SkipSpace(s, i) < |s| && s[SkipSpace(s, i)] == '<'
    requires SkipSpace(s, i) < b < |s| && s[b] == '>'
    requires forall k :: SkipSpace(s, i) <= k < b ==> s[k] != '>'
    ensures TokenAt(s, i) == Some((s[SkipSpace(s, i)..b + 1], b + 1))
  {
    var k := SkipSpace(s, i);
    FindCharSpec(s, '>', k);
  }

  /** A bracketed phrase is one token, brackets kept. */
  lemma TokenizeBracketed()
    ensures Tokens("<a b> c", 0) == ["<a b>", "c"]
  {
    var s := "<a b> c";
    assert SkipSpace(s, 0) == 0;
    BracketToken(s, 0, 4);
    assert TokenAt(s, 0) == Some((s[0..5], 5));
    assert SkipSpace(s, 6) == 6;
    assert SkipSpace(s, 5) == 6;
    assert SkipWord(s, 7) == 7;
    assert SkipWord(s, 6) == 7;
    assert TokenAt(s, 5) == Some((s[6..7], 7));
    assert SkipSpace(s, 7) == 7;
    assert TokenAt(s, 7) == None;
    assert Tokens(s, 7) == [];
    assert Tokens(s, 5) == [s[6..7]];
    assert s[0..5] == "<a b>" && s[6..7] == "c";
  }

  /** A quoted phrase is one token, without its quotes and with its blank. */
  lemma TokenizeQuoted()
    ensures Tokens("a \"two words\" b", 0) == ["a", "two words", "b"]
  {
    var s := "a \"two words\" b";
    assert SkipSpace(s, 0) == 0;
    assert SkipWord(s, 1) == 1;
    assert SkipWord(s, 0) == 1;
    assert TokenAt(s, 0) == Some((s[0..1], 1));
    assert SkipSpace(s, 2) == 2;
    assert SkipSpace(s, 1) == 2;
    assert ClosingQuote(s, 12) == 12;
    assert ClosingQuote(s, 11) == 12;
    assert ClosingQuote(s, 10) == 12;
    assert ClosingQuote(s, 9) == 12;
    assert ClosingQuote(s, 8) == 12;
    assert ClosingQuote(s, 7) == 12;
    assert ClosingQuote(s, 6) == 12;
    assert ClosingQuote(s, 5) == 12;
    assert ClosingQuote(s, 4) == 12;
    assert ClosingQuote(s, 3) == 12;
    assert TokenAt(s, 1) == Some((s[3..12], 13));
    assert SkipSpace(s, 14) == 14;
    assert SkipSpace(s, 13) == 14;
    assert SkipWord(s, 15) == 15;
    assert SkipWord(s, 14) == 15;
    assert TokenAt(s, 13) == Some((s[14..15], 15));
    assert SkipSpace(s, 15) == 15;
    assert TokenAt(s, 15) == None;
    assert s[0..1] == "a" && s[3..12] == "two words" && s[14..15] == "b";
  }

  /** A backslash-escaped quote does not close a quoted token; the backslash is kept. */
  lemma TokenizeEscapedQuote()
    ensures Tokens("x \"a \\\"b\" y", 0) == ["x", "a \\\"b", "y"]
  {
    var s := "x \"a \\\"b\" y";
    assert SkipSpace(s, 0) == 0;
    assert SkipWord(s, 1) == 1;
    assert SkipWord(s, 0) == 1;
    assert TokenAt(s, 0) == Some((s[0..1], 1));
    assert SkipSpace(s, 2) == 2;
    assert SkipSpace(s, 1) == 2;
    assert ClosingQuote(s, 8) == 8;
    assert ClosingQuote(s, 7) == 8;
    assert ClosingQuote(s, 6) == 8;
    assert ClosingQuote(s, 5) == 8;
    assert ClosingQuote(s, 4) == 8;
    assert ClosingQuote(s, 3) == 8;
    assert TokenAt(s, 1) == Some((s[3..8], 9));
    assert SkipSpace(s, 10) == 10;
    assert SkipSpace(s, 9) == 10;
    assert SkipWord(s, 11) == 11;
    assert SkipWord(s, 10) == 11;
    assert TokenAt(s, 9) == Some((s[10..11], 11));
    assert SkipSpace(s, 11) == 11;
    assert TokenAt(s, 11) == None;
    assert s[0..1] == "x" && s[3..8] == "a \\\"b" && s[10..11] == "y";
  }
}
