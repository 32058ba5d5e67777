/** String operations of Rust's standard library that the client relies on,
    restricted to ASCII: substring search, `join`, splitting on a separator,
    decimal rendering and parsing of unsigned integers, lower-casing and
    trimming. */
module Text {
  import opened Errors

  // ---------------------------------------------------------------------
  // Substring search (`str::contains`)
  // ---------------------------------------------------------------------

  /** `sub` occurs somewhere in `s`. */
  predicate Contains(s: string, sub: string)
    decreases |s|
  {
    if |s| < |sub| then false
    else if s[..|sub|] == sub then true
    else Contains(s[1..], sub)
  }

  /** `sub` occurs in `s` starting at position `i`. */
  predicate OccursAt(s: string, sub: string, i: int)
  {
    0 <= i && i + |sub| <= |s| && s[i..i + |sub|] == sub
  }

  /** Occurrences in `s` past its first character are occurrences in its
      tail, one position earlier, and conversely. */
  lemma OccursInTail(s: string, sub: string, i: int)
    requires |s| > 0 && 0 <= i
    ensures OccursAt(s, sub, i + 1) <==> OccursAt(s[1..], sub, i)
  {
    if i + 1 + |sub| <= |s| {
      var rest := s[1..];
      assert forall j :: i < j <= i + |sub| ==> s[j] == rest[j - 1];
      assert rest[i..i + |sub|] == s[i + 1..i + 1 + |sub|];
    }
  }

  /** The recursive search agrees with the positional definition of
      "occurs in", in both directions. */
  lemma {:induction false} ContainsIffOccurs(s: string, sub: string)
    ensures Contains(s, sub) <==> exists i :: OccursAt(s, sub, i)
    decreases |s|
  {
    if |s| < |sub| {
    } else if s[..|sub|] == sub {
      assert OccursAt(s, sub, 0);
    } else {
      ContainsIffOccurs(s[1..], sub);
      if Contains(s[1..], sub) {
        var i :| OccursAt(s[1..], sub, i);
        OccursInTail(s, sub, i);
      } else {
        forall i ensures !OccursAt(s, sub, i) {
          if 0 < i {
            OccursInTail(s, sub, i - 1);
          }
        }
      }
    }
  }

  // ---------------------------------------------------------------------
  // Joining and splitting
  // ---------------------------------------------------------------------

  /** `parts.join(sep)`: the parts in order with `sep` between neighbours. */
  function Join(parts: seq<string>, sep: string): string
  {
    if |parts| == 0 then ""
    else if |parts| == 1 then parts[0]
    else Join(parts[..|parts| - 1], sep) + sep + parts[|parts| - 1]
  }

  /** `s.split(c)`: the maximal runs between occurrences of `c`; never empty. */
  function Split(s: string, c: char): (parts: seq<string>)
    ensures |parts| >= 1
  {
    if |s| == 0 then [""]
    else
      var rest := Split(s[1..], c);
      if s[0] == c then [""] + rest else [[s[0]] + rest[0]] + rest[1..]
  }

  lemma {:induction false} SplitWithoutSeparator(s: string, c: char)
    requires c !in s
    ensures Split(s, c) == [s]
  {
    if |s| > 0 {
      SplitWithoutSeparator(s[1..], c);
      assert [s[0]] + s[1..] == s;
    }
  }

  /** One step of `Split` on a string given as its first character and the rest. */
  lemma SplitCons(x: char, t: string, c: char)
    ensures Split([x] + t, c) == (if x == c then [""] + Split(t, c)
                                  else [[x] + Split(t, c)[0]] + Split(t, c)[1..])
  {
    assert ([x] + t)[1..] == t;
  }

  lemma ConcatAssociative<T>(x: seq<T>, y: seq<T>, z: seq<T>)
    ensures x + (y + z) == x + y + z
  {
  }

  /** Splitting at one occurrence of the separator splits the two sides
      independently. */
  lemma {:induction false} SplitAtSeparator(a: string, b: string, c: char)
    ensures Split(a + [c] + b, c) == Split(a, c) + Split(b, c)
  {
    if |a| == 0 {
      assert a + [c] + b == [c] + b;
      SplitCons(c, b, c);
      assert Split(a, c) == [""];
    } else {
      var t := a[1..] + [c] + b;
      assert a + [c] + b == [a[0]] + t;
      assert a == [a[0]] + a[1..];
      SplitCons(a[0], t, c);
      SplitCons(a[0], a[1..], c);
      SplitAtSeparator(a[1..], b, c);
      var tail := Split(a[1..], c);
      assert Split(t, c) == tail + Split(b, c);
      if a[0] == c {
        assert Split(a + [c] + b, c) == [""] + (tail + Split(b, c));
        assert Split(a, c) == [""] + tail;
        ConcatAssociative([""], tail, Split(b, c));
      } else {
        var head := [a[0]] + tail[0];
        assert Split(t, c)[0] == tail[0];
        assert Split(t, c)[1..] == tail[1..] + Split(b, c);
        assert Split(a + [c] + b, c) == [head] + (tail[1..] + Split(b, c));
        assert Split(a, c) == [head] + tail[1..];
        ConcatAssociative([head], tail[1..], Split(b, c));
      }
    }
  }

  /** Splitting undoes joining, as long as no part holds the separator. */
  lemma {:induction false} SplitJoin(parts: seq<string>, c: char)
    requires |parts| >= 1
    requires forall i :: 0 <= i < |parts| ==> c !in parts[i]
    ensures Split(Join(parts, [c]), c) == parts
  {
    var n := |parts|;
    if n == 1 {
      SplitWithoutSeparator(parts[0], c);
    } else {
      var init := parts[..n - 1];
      SplitJoin(init, c);
      SplitAtSeparator(Join(init, [c]), parts[n - 1], c);
      SplitWithoutSeparator(parts[n - 1], c);
      assert Join(parts, [c]) == Join(init, [c]) + [c] + parts[n - 1];
      assert init + [parts[n - 1]] == parts;
    }
  }

  /** No part of a join with a one-character separator introduces a
      character that is neither the separator nor in some part. */
  lemma {:induction false} JoinChars(parts: seq<string>, c: char, x: char)
    requires x != c
    requires forall i :: 0 <= i < |parts| ==> x !in parts[i]
    ensures x !in Join(parts, [c])
  {
    if |parts| > 1 {
      JoinChars(parts[..|parts| - 1], c, x);
    }
  }

  // ---------------------------------------------------------------------
  // Decimal numbers (`to_string` and `str::parse::<u16>`)
  // ---------------------------------------------------------------------

  predicate IsDigit(c: char) { '0' <= c <= '9' }

  predicate AllDigits(s: string) { forall i :: 0 <= i < |s| ==> IsDigit(s[i]) }

  function DigitChar(d: nat): (c: char)
    requires d < 10
    ensures IsDigit(c) && c as int - '0' as int == d
  {
    ('0' as int + d) as char
  }

  /** The decimal rendering of `n`, without sign or leading zeros. */
  function NatToString(n: nat): (s: string)
    ensures |s| >= 1 && AllDigits(s)
    ensures |s| > 1 ==> s[0] != '0'
  {
    if n < 10 then [DigitChar(n)] else NatToString(n / 10) + [DigitChar(n % 10)]
  }

  /** The value of a string of decimal digits, leading zeros allowed. */
  function DigitsValue(s: string): nat
    requires AllDigits(s)
  {
    if |s| == 0 then 0
    else DigitsValue(s[..|s| - 1]) * 10 + (s[|s| - 1] as int - '0' as int)
  }

  /** Reading the rendering back gives the number. */
  lemma {:induction false} DigitsValueOfNatToString(n: nat)
    ensures DigitsValue(NatToString(n)) == n
  {
    if n >= 10 {
      DigitsValueOfNatToString(n / 10);
      var s := NatToString(n);
      assert s[..|s| - 1] == NatToString(n / 10);
    }
  }

  /** `s.parse::<u16>()`: an optional single leading '+', then at least one
      decimal digit, and a value below 65536. */
  function ParseU16(s: string): Option<u16>
  {
    var digits := if |s| > 1 && s[0] == '+' then s[1..] else s;
    if |digits| == 0 || !AllDigits(digits) then None
    else if DigitsValue(digits) < 0x1_0000 then Some(DigitsValue(digits))
    else None
  }

  /** A label without '+' parses exactly when it is a non-empty run of
      digits whose value fits in 16 bits. */
  lemma ParseU16WithoutPlus(s: string)
    requires '+' !in s
    ensures ParseU16(s).Some? <==> |s| > 0 && AllDigits(s) && DigitsValue(s) < 0x1_0000
    ensures ParseU16(s).Some? ==> ParseU16(s).value == DigitsValue(s)
  {
    if |s| > 1 {
      assert s[0] in s;
    }
  }

  /** Every `u16` rendered in decimal parses back to itself. */
  lemma ParseU16OfNatToString(n: u16)
    ensures ParseU16(NatToString(n)) == Some(n)
  {
    DigitsValueOfNatToString(n);
  }

  // ---------------------------------------------------------------------
  // Case and white space (ASCII only)
  // ---------------------------------------------------------------------

  function ToLowerChar(c: char): char
  {
    if 'A' <= c <= 'Z' then (c as int - 'A' as int + 'a' as int) as char else c
  }

  /** `str::to_lowercase` on ASCII text. */
  function ToLower(s: string): (r: string)
    ensures |r| == |s|
    ensures forall i :: 0 <= i < |s| ==> r[i] == ToLowerChar(s[i])
  {
    seq(|s|, i requires 0 <= i < |s| => ToLowerChar(s[i]))
  }

  lemma ToLowerIdempotent(s: string)
    ensures ToLower(ToLower(s)) == ToLower(s)
  {
  }

  /** `char::is_whitespace` on ASCII: tab, line feed, vertical tab, form
      feed, carriage return and space. */
  predicate IsWhitespace(c: char) { c == ' ' || '\t' <= c <= '\r' }

  function TrimStart(s: string): (r: string)
    ensures |r| <= |s| && r == s[|s| - |r|..]
    ensures |r| > 0 ==> !IsWhitespace(r[0])
    ensures forall i :: 0 <= i < |s| - |r| ==> IsWhitespace(s[i])
  {
    if |s| > 0 && IsWhitespace(s[0]) then TrimStart(s[1..]) else s
  }

  function TrimEnd(s: string): (r: string)
    ensures |r| <= |s| && r == s[..|r|]
    ensures |r| > 0 ==> !IsWhitespace(r[|r| - 1])
    ensures forall i :: |r| <= i < |s| ==> IsWhitespace(s[i])
  {
    if |s| > 0 && IsWhitespace(s[|s| - 1]) then TrimEnd(s[..|s| - 1]) else s
  }

  /** `str::trim`: the longest infix that neither starts nor ends with
      white space, obtained by removing white space at both ends only. */
  function Trim(s: string): (r: string)
  {
    TrimEnd(TrimStart(s))
  }

  /** `s.replace(c, "")` for a one-character pattern. */
  function RemoveChar(s: string, c: char): (r: string)
    ensures c !in r
    ensures |r| <= |s|
  {
    if |s| == 0 then ""
    else if s[|s| - 1] == c then RemoveChar(s[..|s| - 1], c)
    else RemoveChar(s[..|s| - 1], c) + [s[|s| - 1]]
  }

  /** Removing a character that does not occur changes nothing. */
  lemma {:induction false} RemoveAbsentChar(s: string, c: char)
    requires c !in s
    ensures RemoveChar(s, c) == s
  {
    if |s| > 0 {
      RemoveAbsentChar(s[..|s| - 1], c);
      assert s[..|s| - 1] + [s[|s| - 1]] == s;
    }
  }

  /** Every other character of the text survives the removal. */
  lemma {:induction false} RemoveCharKeepsOthers(s: string, c: char, i: nat)
    requires i < |s| && s[i] != c
    ensures s[i] in RemoveChar(s, c)
  {
    var init := s[..|s| - 1];
    if i < |s| - 1 {
      assert s[i] == init[i];
      RemoveCharKeepsOthers(init, c, i);
    }
  }

  /** Removing a character from two parts is removing it from the whole:
      the characters kept stay in their order. */
  lemma {:induction false} RemoveCharAppend(a: string, b: string, c: char)
    ensures RemoveChar(a + b, c) == RemoveChar(a, c) + RemoveChar(b, c)
  {
    if b == [] {
      assert a + b == a;
    } else {
      var init := b[..|b| - 1];
      RemoveCharAppend(a, init, c);
      assert (a + b)[..|a + b| - 1] == a + init;
    }
  }

  // ---------------------------------------------------------------------
  // Id lists
  // ---------------------------------------------------------------------

  /** The ids rendered in decimal. */
  function Decimals(ids: seq<nat>): (ds: seq<string>)
    ensures |ds| == |ids| && forall i :: 0 <= i < |ids| ==> ds[i] == NatToString(ids[i])
  {
    if ids == [] then [] else Decimals(ids[..|ids| - 1]) + [NatToString(ids[|ids| - 1])]
  }

  /** The `id` parameter: the ids in decimal, separated by commas. */
  function IdList(ids: seq<nat>): string
  {
    Join(Decimals(ids), ",")
  }

  /** The id list is unambiguous: splitting it at the commas gives back one
      decimal numeral per id, in order. */
  lemma IdListRoundTrip(ids: seq<nat>)
    requires |ids| >= 1
    ensures var parts := Split(IdList(ids), ',');
            |parts| == |ids|
            && forall i :: 0 <= i < |ids| ==> AllDigits(parts[i]) && DigitsValue(parts[i]) == ids[i]
  {
    var ds := Decimals(ids);
    forall i | 0 <= i < |ds| ensures ',' !in ds[i] {
      assert AllDigits(ds[i]);
    }
    SplitJoin(ds, ',');
    forall i | 0 <= i < |ids| ensures DigitsValue(ds[i]) == ids[i] {
      DigitsValueOfNatToString(ids[i]);
    }
  }
}
