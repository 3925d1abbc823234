/**
 * The input formatters of the payment page: the card number in groups of
 * four digits, the expiry date as `MM / YY`, and the three-digit CVC. Each
 * runs on every change of its field, on what the field shows.
 */
module Payment {
  import opened Text

  const GroupSize: nat := 4
  const MinCardDigits: nat := 4
  const MaxCardDigits: nat := 16
  /** The card field's `maxLength`. */
  const CardFieldLength: nat := 19
  /** The expiry field's `maxLength`. */
  const ExpiryFieldLength: nat := 7
  const CvcLength: nat := 3

  function Min(a: int, b: int): int { if a <= b then a else b }

  /**
   * `v.match(/\d{4,16}/g)[0]` for a string of digits: its first sixteen
   * digits when it has at least four, and the empty string (no match) when
   * it has fewer.
   */
  function FirstCardRun(v: string): (m: string)
    requires AllDigits(v)
    ensures |v| < MinCardDigits ==> m == []
    ensures |v| >= MinCardDigits ==> m == v[..Min(|v|, MaxCardDigits)]
  {
    if |v| < MinCardDigits then [] else v[..Min(|v|, MaxCardDigits)]
  }

  /** The pieces `s.substring(i, i + 4)` for `i = 0, 4, 8, ...` below `|s|`. */
  function Chunks(s: string): (parts: seq<string>)
    decreases |s|
  {
    if s == [] then []
    else if |s| <= GroupSize then [s]
    else [s[..GroupSize]] + Chunks(s[GroupSize..])
  }

  /** `parts.join(sep)`. */
  function Join(parts: seq<string>, sep: string): string
  {
    if parts == [] then []
    else if |parts| == 1 then parts[0]
    else parts[0] + sep + Join(parts[1..], sep)
  }

  /** What `formatCardNumber` returns. */
  function CardNumberFormat(value: string): string
  {
    var m := FirstCardRun(DigitsOnly(RemoveWhitespace(value)));
    var parts := Chunks(m);
    if |parts| > 0 then Join(parts, " ") else value
  }

  /** The `for` loop that cuts the matched digits into pieces of four. */
  method SplitIntoGroups(m: string) returns (parts: seq<string>)
    ensures parts == Chunks(m)
  {
    parts := [];
    var i := 0;
    while i < |m|
      invariant 0 <= i
      invariant parts + Chunks(m[Min(i, |m|)..]) == Chunks(m)
      decreases |m| - i
    {
      var end := if i + GroupSize <= |m| then i + GroupSize else |m|;
      ChunksStep(m, i);
      assert m[Min(i + GroupSize, |m|)..] == [] || i + GroupSize < |m|;
      parts := parts + [m[i..end]];
      i := i + GroupSize;
    }
    assert m[Min(i, |m|)..] == [];
  }

  lemma ChunksStep(m: string, i: nat)
    requires i < |m|
    ensures Chunks(m[i..]) == [m[i..Min(i + GroupSize, |m|)]] + (if i + GroupSize < |m| then Chunks(m[i + GroupSize..]) else [])
  {
    var t := m[i..];
    if |t| > GroupSize {
      assert t[..GroupSize] == m[i..i + GroupSize];
      assert t[GroupSize..] == m[i + GroupSize..];
    } else {
      assert Chunks(t) == [t];
      assert t == m[i..|m|];
    }
  }

  /** `formatCardNumber(value)`. */
  method FormatCardNumber(value: string) returns (r: string)
    ensures r == CardNumberFormat(value)
  {
    var v := DigitsOnly(RemoveWhitespace(value));
    var m := FirstCardRun(v);
    var parts := SplitIntoGroups(m);
    if |parts| > 0 {
      r := Join(parts, " ");
    } else {
      r := value;
    }
  }

  // -------------------------------------------------- the card number's layout

  /** The number of digits `formatCardNumber` keeps. */
  function KeptDigits(value: string): nat
  {
    var n := |DigitsOnly(value)|;
    if n < MinCardDigits then 0 else Min(n, MaxCardDigits)
  }

  lemma ChunksOfShort(s: string)
    requires 1 <= |s| <= GroupSize
    ensures Chunks(s) == [s] && Join(Chunks(s), " ") == s
  {
  }

  lemma ChunksOfLong(s: string)
    requires |s| > GroupSize
    ensures Join(Chunks(s), " ") == s[..GroupSize] + " " + Join(Chunks(s[GroupSize..]), " ")
  {
    var rest := Chunks(s[GroupSize..]);
    assert rest != [];
    assert Chunks(s) == [s[..GroupSize]] + rest;
    assert (Chunks(s))[1..] == rest;
  }

  /**
   * The layout of grouped digits: a space at every fifth position and the
   * digits, in order, everywhere else.
   */
  lemma {:induction false} GroupedLayout(s: string)
    requires |s| >= 1
    ensures var r := Join(Chunks(s), " ");
      && |r| == |s| + (|s| - 1) / GroupSize
      && forall i :: 0 <= i < |r| ==> if i % 5 == 4 then r[i] == ' ' else r[i] == s[i - i / 5]
    decreases |s|
  {
    if |s| <= GroupSize {
      ChunksOfShort(s);
    } else {
      var t := s[GroupSize..];
      GroupedLayout(t);
      ChunksOfLong(s);
      var r := Join(Chunks(s), " ");
      var r' := Join(Chunks(t), " ");
      assert r == s[..GroupSize] + " " + r';
      assert r[5..] == r';
      forall i | 0 <= i < |r| ensures if i % 5 == 4 then r[i] == ' ' else r[i] == s[i - i / 5] {
        if i >= 5 {
          ShiftedPosition(r, r', s, t, i);
        }
      }
    }
  }

  lemma ShiftedPosition(r: string, r': string, s: string, t: string, i: nat)
    requires |s| > GroupSize && t == s[GroupSize..] && |r| == |r'| + 5 && r[5..] == r' && 5 <= i < |r|
    requires |r'| == |t| + (|t| - 1) / GroupSize
    requires forall i' :: 0 <= i' < |r'| ==> if i' % 5 == 4 then r'[i'] == ' ' else r'[i'] == t[i' - i' / 5]
    ensures if i % 5 == 4 then r[i] == ' ' else r[i] == s[i - i / 5]
  {
    var i' := i - 5;
    assert r[i] == r'[i'];
    assert i' % 5 == i % 5 && i' / 5 == i / 5 - 1;
  }

  /** Taking the digits of grouped digits gives the digits back. */
  lemma {:induction false} DigitsOfGrouped(s: string)
    requires AllDigits(s)
    ensures DigitsOnly(Join(Chunks(s), " ")) == s
    decreases |s|
  {
    if s == [] {
    } else if |s| <= GroupSize {
      ChunksOfShort(s);
      DigitsOnlyOfDigits(s);
    } else {
      var t := s[GroupSize..];
      DigitsOfGrouped(t);
      ChunksOfLong(s);
      DigitsOnlyAppend(s[..GroupSize] + " ", Join(Chunks(t), " "));
      DigitsOnlyAppend(s[..GroupSize], " ");
      DigitsOnlyOfDigits(s[..GroupSize]);
      assert DigitsOnly(" ") == [];
      assert s == s[..GroupSize] + t;
    }
  }

  /**
   * With fewer than four digits in the input the field keeps what was
   * typed. Otherwise the result is the first (at most sixteen) digits in
   * groups of four with single spaces between: a space at every fifth
   * position and the digits, in order, elsewhere, never longer than the
   * field's nineteen characters.
   */
  lemma CardNumberLayout(value: string)
    ensures KeptDigits(value) == 0 ==> CardNumberFormat(value) == value
    ensures var r := CardNumberFormat(value);
      var n := KeptDigits(value);
      n > 0 ==>
        && |r| == n + (n - 1) / GroupSize <= CardFieldLength
        && forall i :: 0 <= i < |r| ==>
             if i % 5 == 4 then r[i] == ' ' else r[i] == DigitsOnly(value)[i - i / 5]
  {
    DigitsOnlyIgnoresWhitespace(value);
    var v := DigitsOnly(value);
    var m := FirstCardRun(v);
    if |m| > 0 {
      GroupedLayout(m);
      var r := CardNumberFormat(value);
      assert r == Join(Chunks(m), " ");
      forall i | 0 <= i < |r| && i % 5 != 4 ensures r[i] == v[i - i / 5] {
        assert m[i - i / 5] == v[i - i / 5];
      }
    }
  }

  /** Formatting what the field shows again changes nothing. */
  lemma CardNumberIdempotent(value: string)
    ensures CardNumberFormat(CardNumberFormat(value)) == CardNumberFormat(value)
  {
    DigitsOnlyIgnoresWhitespace(value);
    var m := FirstCardRun(DigitsOnly(value));
    if |m| > 0 {
      var r := Join(Chunks(m), " ");
      DigitsOnlyIgnoresWhitespace(r);
      DigitsOfGrouped(m);
      assert FirstCardRun(m) == m;
    }
  }

  // ------------------------------------------------------------- expiry

  /** `formatExpiry(value)`. */
  function ExpiryFormat(value: string): string
  {
    var v := DigitsOnly(RemoveWhitespace(value));
    if |v| >= 2 then v[..2] + " / " + v[2..Min(|v|, 4)] else v
  }

  /**
   * From two digits on, the result is the first two digits, " / ", and up
   * to two more digits, so it fits the field's seven characters; before
   * that it is the digits typed so far.
   */
  lemma ExpiryLayout(value: string)
    ensures var v := DigitsOnly(value);
      var r := ExpiryFormat(value);
      && |r| <= ExpiryFieldLength
      && (|v| < 2 ==> r == v)
      && (|v| >= 2 ==> |r| >= 5 && r[..2] == v[..2] && r[2..5] == " / " && r[5..] == v[2..Min(|v|, 4)])
  {
    DigitsOnlyIgnoresWhitespace(value);
  }

  /** Formatting what the field shows again changes nothing. */
  lemma ExpiryIdempotent(value: string)
    ensures ExpiryFormat(ExpiryFormat(value)) == ExpiryFormat(value)
  {
    DigitsOnlyIgnoresWhitespace(value);
    var v := DigitsOnly(value);
    var r := ExpiryFormat(value);
    DigitsOnlyIgnoresWhitespace(r);
    if |v| >= 2 {
      var tail := v[2..Min(|v|, 4)];
      DigitsOnlyAppend(v[..2] + " / ", tail);
      DigitsOnlyAppend(v[..2], " / ");
      DigitsOnlyOfDigits(v[..2]);
      DigitsOnlyOfDigits(tail);
      assert DigitsOnly(" / ") == [];
      assert DigitsOnly(r) == v[..2] + tail;
    } else {
      DigitsOnlyOfDigits(v);
    }
  }

  // ---------------------------------------------------------------- CVC

  /** The CVC field's filter: the digits typed, cut after the third. */
  function CvcFormat(value: string): string
  {
    var v := DigitsOnly(value);
    v[..Min(|v|, CvcLength)]
  }

  /** The CVC is the first at most three digits of the input, and filtering it again changes nothing. */
  lemma CvcLayout(value: string)
    ensures var r := CvcFormat(value);
      && AllDigits(r) && |r| == Min(|DigitsOnly(value)|, CvcLength)
      && r <= DigitsOnly(value)
      && CvcFormat(r) == r
  {
    var r := CvcFormat(value);
    DigitsOnlyOfDigits(r);
  }
}
