/**
 * The string formats the library writes: decimal numbers (`long.ToString()`,
 * `string.Format("{0}", n)`), comma- and ampersand-joined lists (`string.Join`)
 * and `key=value&key=value` request bodies. Each writer has a reader beside it
 * and a lemma that the reader undoes the writer.
 */
module Text {
  import opened Errors
  import opened Int64

  predicate IsDigit(c: char) { '0' <= c <= '9' }

  /** The character class `[0-9a-f]` of the token patterns. */
  predicate IsLowerHex(c: char) { '0' <= c <= '9' || 'a' <= c <= 'f' }

  predicate AllDigits(s: string) { forall i :: 0 <= i < |s| ==> IsDigit(s[i]) }

  predicate AllLowerHex(s: string) { forall i :: 0 <= i < |s| ==> IsLowerHex(s[i]) }

  function DigitChar(d: nat): (c: char)
    requires d < 10
    ensures IsDigit(c)
  {
    ('0' as int + d) as char
  }

  function DigitValue(c: char): (d: nat)
    requires IsDigit(c)
    ensures d < 10 && DigitChar(d) == c
  {
    c as int - '0' as int
  }

  // ---------------------------------------------------------------------------
  // Decimal numbers

  /** The invariant decimal rendering of a natural number, without leading zeros. */
  function NatToDecimal(n: nat): (s: string)
    ensures |s| > 0 && AllDigits(s)
    ensures s[0] == '0' <==> n == 0
  {
    if n < 10 then [DigitChar(n)] else NatToDecimal(n / 10) + [DigitChar(n % 10)]
  }

  /** The value of a string of decimal digits (what `long.Parse` computes before its range check). */
  function ParseDecimal(s: string): nat
    requires AllDigits(s)
  {
    if s == [] then 0 else ParseDecimal(s[..|s| - 1]) * 10 + DigitValue(s[|s| - 1])
  }

  /** Reading back a rendered number gives the number. */
  lemma {:induction false} ParseNatToDecimal(n: nat)
    ensures ParseDecimal(NatToDecimal(n)) == n
  {
    if n >= 10 {
      var s := NatToDecimal(n);
      assert s[..|s| - 1] == NatToDecimal(n / 10);
      ParseNatToDecimal(n / 10);
    }
  }

  /** Rendering a parsed canonical digit string gives the string back. */
  lemma {:induction false} NatToDecimalParse(s: string)
    requires |s| > 0 && AllDigits(s) && (s[0] == '0' ==> |s| == 1)
    ensures NatToDecimal(ParseDecimal(s)) == s
  {
    if |s| > 1 {
      var init := s[..|s| - 1];
      NatToDecimalParse(init);
      assert ParseDecimal(init) > 0 by {
        assert NatToDecimal(ParseDecimal(init)) == init;
      }
    }
  }

  /** Distinct numbers render as distinct strings. */
  lemma NatToDecimalInjective(m: nat, n: nat)
    requires NatToDecimal(m) == NatToDecimal(n)
    ensures m == n
  {
    ParseNatToDecimal(m);
    ParseNatToDecimal(n);
  }

  /** The invariant decimal rendering of a signed integer (`long.ToString()`). */
  function IntToDecimal(x: int): (s: string)
    ensures |s| > 0
    ensures x >= 0 ==> AllDigits(s)
    ensures x < 0 ==> s[0] == '-' && AllDigits(s[1..])
  {
    if x < 0 then "-" + NatToDecimal(-x) else NatToDecimal(x)
  }

  /** Text `long.Parse` reads in the integer style: an optional `-` or `+` sign, then one or more digits. */
  predicate IntegerText(s: string)
  {
    || (|s| > 0 && AllDigits(s))
    || (|s| > 1 && (s[0] == '-' || s[0] == '+') && AllDigits(s[1..]))
  }

  /** The number an integer text denotes, before any range check. */
  function SignedValue(s: string): int
    requires IntegerText(s)
  {
    if AllDigits(s) then ParseDecimal(s)
    else if s[0] == '-' then -(ParseDecimal(s[1..]) as int)
    else ParseDecimal(s[1..])
  }

  /**
   * `long.Parse(s)`: the number of an integer text; any other text is a
   * FormatException and a number outside `long` an OverflowException.
   */
  function ParseLong(s: string): (r: Result<Long>)
    ensures r.Ok? <==> IntegerText(s) && MinLong <= SignedValue(s) <= MaxLong
    ensures r.Ok? ==> r.value == SignedValue(s)
    ensures !IntegerText(s) ==> r == Err(Format(""))
    ensures IntegerText(s) && !(MinLong <= SignedValue(s) <= MaxLong) ==> r == Err(Overflow)
  {
    if !IntegerText(s) then Err(Format(""))
    else if MinLong <= SignedValue(s) <= MaxLong then Ok(SignedValue(s))
    else Err(Overflow)
  }

  /** `long.Parse` reads back what `long.ToString()` writes. */
  lemma ParseLongOfDecimal(x: Long)
    ensures ParseLong(IntToDecimal(x)) == Ok(x)
  {
    var s := IntToDecimal(x);
    if x < 0 {
      var n: nat := -(x as int);
      assert s[1..] == NatToDecimal(n);
      ParseNatToDecimal(n);
      assert !AllDigits(s) by { assert !IsDigit(s[0]); }
    } else {
      ParseNatToDecimal(x);
    }
  }

  // ---------------------------------------------------------------------------
  // Separated lists

  /** `string.Join(sep, parts)`: the parts with one separator between neighbours. */
  function Join(parts: seq<string>, sep: char): string
  {
    if |parts| == 0 then "" else if |parts| == 1 then parts[0] else parts[0] + [sep] + Join(parts[1..], sep)
  }

  /** The position of the first `c` in `s`, if any. */
  function IndexOf(s: string, c: char): (r: Option<nat>)
    ensures r.Some? ==> r.value < |s| && s[r.value] == c && c !in s[..r.value]
    ensures r.None? ==> c !in s
  {
    if s == [] then None
    else if s[0] == c then Some(0)
    else
      match IndexOf(s[1..], c)
      case None => None
      case Some(i) => assert s[..i + 1] == [s[0]] + s[1..][..i]; Some(i + 1)
  }

  /** The pieces of `s` between occurrences of `sep` (`s.Split(sep)`). */
  function Split(s: string, sep: char): (parts: seq<string>)
    ensures |parts| > 0
    ensures forall p :: p in parts ==> sep !in p
    decreases |s|
  {
    match IndexOf(s, sep)
    case None => [s]
    case Some(i) => [s[..i]] + Split(s[i + 1..], sep)
  }

  lemma {:induction false} IndexOfAfterPrefix(p: string, sep: char, rest: string)
    requires sep !in p
    ensures IndexOf(p + [sep] + rest, sep) == Some(|p|)
  {
    if p != [] {
      assert (p + [sep] + rest)[1..] == p[1..] + [sep] + rest;
      IndexOfAfterPrefix(p[1..], sep, rest);
    }
  }

  /** Splitting a join of separator-free parts gives the parts back. */
  lemma {:induction false} SplitJoin(parts: seq<string>, sep: char)
    requires |parts| > 0
    requires forall p :: p in parts ==> sep !in p
    ensures Split(Join(parts, sep), sep) == parts
  {
    if |parts| > 1 {
      var rest := Join(parts[1..], sep);
      IndexOfAfterPrefix(parts[0], sep, rest);
      var s := parts[0] + [sep] + rest;
      assert s[..|parts[0]|] == parts[0];
      assert s[|parts[0]| + 1..] == rest;
      SplitJoin(parts[1..], sep);
    }
  }

  /** Joining the pieces of a split gives the string back. */
  lemma {:induction false} JoinSplit(s: string, sep: char)
    ensures Join(Split(s, sep), sep) == s
    decreases |s|
  {
    match IndexOf(s, sep)
    case None =>
    case Some(i) =>
      JoinSplit(s[i + 1..], sep);
      assert s == s[..i] + [sep] + s[i + 1..];
  }

  // ---------------------------------------------------------------------------
  // key=value&key=value bodies

  /** One `key=value` item. */
  function Item(entry: (string, string)): string
  {
    entry.0 + "=" + entry.1
  }

  function Items(entries: seq<(string, string)>): (items: seq<string>)
    ensures |items| == |entries|
    ensures forall i :: 0 <= i < |entries| ==> items[i] == Item(entries[i])
  {
    if entries == [] then [] else [Item(entries[0])] + Items(entries[1..])
  }

  /** The request body `k1=v1&k2=v2&…` of a list of entries, in list order. */
  function Query(entries: seq<(string, string)>): string
  {
    Join(Items(entries), '&')
  }

  /** Splits one item at its first `=`. */
  function ParseItem(item: string): (string, string)
  {
    match IndexOf(item, '=')
    case None => (item, "")
    case Some(i) => (item[..i], item[i + 1..])
  }

  /** Reads a request body back into its entries. */
  function ParseQuery(s: string): seq<(string, string)>
  {
    if s == "" then [] else ParseItems(Split(s, '&'))
  }

  function ParseItems(items: seq<string>): (entries: seq<(string, string)>)
    ensures |entries| == |items|
    ensures forall i :: 0 <= i < |items| ==> entries[i] == ParseItem(items[i])
  {
    if items == [] then [] else [ParseItem(items[0])] + ParseItems(items[1..])
  }

  /** An entry that survives the round trip: the key holds neither `&` nor `=`, the value no `&`. */
  predicate Plain(entry: (string, string))
  {
    '&' !in entry.0 && '=' !in entry.0 && '&' !in entry.1
  }

  lemma ParseItemOfItem(entry: (string, string))
    requires Plain(entry)
    ensures ParseItem(Item(entry)) == entry
    ensures '&' !in Item(entry)
  {
    var item := Item(entry);
    assert item == entry.0 + ['='] + entry.1;
    IndexOfAfterPrefix(entry.0, '=', entry.1);
    assert item[..|entry.0|] == entry.0;
    assert item[|entry.0| + 1..] == entry.1;
  }

  /** Reading back a body whose entries are plain gives the entries, in order. */
  lemma ParseQueryOfQuery(entries: seq<(string, string)>)
    requires forall i :: 0 <= i < |entries| ==> Plain(entries[i])
    ensures ParseQuery(Query(entries)) == entries
  {
    if entries != [] {
      var items := Items(entries);
      forall i | 0 <= i < |entries|
        ensures ParseItem(items[i]) == entries[i] && '&' !in items[i]
      {
        ParseItemOfItem(entries[i]);
      }
      assert Query(entries) != "" by {
        assert '=' in items[0];
        JoinHasFirst(items, '&');
      }
      SplitJoin(items, '&');
    }
  }

  lemma JoinHasFirst(parts: seq<string>, sep: char)
    requires |parts| > 0
    ensures |Join(parts, sep)| >= |parts[0]|
    ensures Join(parts, sep)[..|parts[0]|] == parts[0]
  {
  }
}
