/**
 * Record helpers: the `isRecord` shape test and `getRecordEntries`, which
 * lists an object's entries and turns every all-digit key back into a
 * number. Also the property-key rendering of a request type, which is how
 * JavaScript stores a string or number key in a plain object.
 */
module Utils {
  import opened JsValues

  /** A record key as the store sees it: a string or an integer number. */
  datatype RecordEntryKey = StrKey(s: string) | NumKey(n: int)

  /** `value !== null && typeof value === 'object' && !Array.isArray(value)` */
  predicate IsRecord(value: JsValue)
    ensures IsRecord(value) <==> value.Obj?
  {
    value != Null && TypeOf(value) == "object" && !value.Arr?
  }

  lemma RecordsAreNonArrayObjects()
    ensures !IsRecord(Null) && !IsRecord(Arr([])) && !IsRecord(Undefined)
    ensures !IsRecord(Str("{}")) && !IsRecord(Num(1.0)) && !IsRecord(Bool(true)) && !IsRecord(Func)
    ensures IsRecord(Obj(map[]))
  {
  }

  // ---------------------------------------------------------------------
  // Decimal digit strings: the `/^\d+$/` test and `Number(key)`

  predicate IsDigit(c: char) {
    '0' <= c <= '9'
  }

  predicate AllDigits(s: string) {
    forall i :: 0 <= i < |s| ==> IsDigit(s[i])
  }

  /** `/^\d+$/.test(s)`: non-empty and made of ASCII decimal digits only
      (`\d` without the `u` flag matches `[0-9]`). */
  predicate IsDigitString(s: string)
    ensures IsDigitString(s) <==> s != [] && forall i :: 0 <= i < |s| ==> s[i] in "0123456789"
  {
    |s| > 0 && AllDigits(s)
  }

  /** A digit string with a superfluous leading zero, such as "007". */
  predicate HasLeadingZero(s: string) {
    IsDigitString(s) && |s| > 1 && s[0] == '0'
  }

  function DigitValue(c: char): (d: nat)
    requires IsDigit(c)
    ensures d < 10
  {
    (c as int - '0' as int) as nat
  }

  function DigitChar(d: nat): (c: char)
    requires d < 10
    ensures IsDigit(c) && DigitValue(c) == d
  {
    (d + '0' as int) as char
  }

  /** `Number(s)` for a digit string: its value in base ten. */
  function DigitsValue(s: string): nat
    requires AllDigits(s)
  {
    if s == [] then 0 else DigitsValue(s[..|s| - 1]) * 10 + DigitValue(s[|s| - 1])
  }

  /** `String(n)` for a non-negative integer: its decimal digits without
      leading zeros. */
  function Decimal(n: nat): (r: string)
    ensures IsDigitString(r) && !HasLeadingZero(r)
  {
    if n < 10 then [DigitChar(n)] else Decimal(n / 10) + [DigitChar(n % 10)]
  }

  lemma {:induction false} DecimalRoundTrip(n: nat)
    ensures DigitsValue(Decimal(n)) == n
  {
    if n >= 10 {
      var r := Decimal(n);
      assert r[..|r| - 1] == Decimal(n / 10);
      DecimalRoundTrip(n / 10);
    }
  }

  lemma {:induction false} LeadingDigitPositive(s: string)
    requires IsDigitString(s) && s[0] != '0'
    ensures DigitsValue(s) > 0
  {
    if |s| > 1 {
      LeadingDigitPositive(s[..|s| - 1]);
    }
  }

  /** A digit string without a superfluous leading zero is exactly the
      decimal rendering of its value. */
  lemma {:induction false} CanonicalDigitsRoundTrip(s: string)
    requires IsDigitString(s) && !HasLeadingZero(s)
    ensures Decimal(DigitsValue(s)) == s
  {
    var c := s[|s| - 1];
    assert DigitChar(DigitValue(c)) == c;
    if |s| > 1 {
      var p := s[..|s| - 1];
      LeadingDigitPositive(p);
      CanonicalDigitsRoundTrip(p);
      LastDigitSplit(DigitsValue(p), DigitValue(c));
      assert s == p + [c];
    }
  }

  /** Appending digit `d` to a positive value `a` gives a value of at least
      ten whose quotient and remainder by ten are `a` and `d`. */
  lemma LastDigitSplit(a: nat, d: nat)
    requires a > 0 && d < 10
    ensures a * 10 + d >= 10 && (a * 10 + d) / 10 == a && (a * 10 + d) % 10 == d
  {
  }

  // ---------------------------------------------------------------------
  // Property keys

  /** The property name under which `object[key]` reads or writes: a string
      key as it is, an integer in its decimal rendering with a minus sign
      when negative. */
  function PropKey(key: RecordEntryKey): (name: string)
    ensures key.StrKey? ==> name == key.s
    ensures key.NumKey? && key.n >= 0 ==> IsDigitString(name) && !HasLeadingZero(name)
    ensures key.NumKey? && key.n < 0 ==> |name| > 1 && name[0] == '-' && IsDigitString(name[1..])
  {
    match key
    case StrKey(s) => s
    case NumKey(n) => if n >= 0 then Decimal(n) else "-" + Decimal(-n)
  }

  /** The key `getRecordEntries` reports for property name `s`:
      `entryKeyRegExp.test(key) ? Number(key) : key`. */
  function EntryKey(s: string): (key: RecordEntryKey)
    ensures key.NumKey? <==> IsDigitString(s)
    ensures key.StrKey? ==> key.s == s
    ensures key.NumKey? ==> key.n >= 0
  {
    if IsDigitString(s) then NumKey(DigitsValue(s)) else StrKey(s)
  }

  /** `getRecordEntries` applied to the list `Object.entries(object)`
      returns: one pair per entry, in the same order, each value unchanged
      and each key rewritten by `EntryKey`. */
  function GetRecordEntries<V>(entries: seq<(string, V)>): (r: seq<(RecordEntryKey, V)>)
    ensures |r| == |entries|
    ensures forall i :: 0 <= i < |r| ==> r[i].1 == entries[i].1
    ensures forall i :: 0 <= i < |r| ==> r[i].0 == EntryKey(entries[i].0)
    ensures forall i :: 0 <= i < |r| ==> (r[i].0.NumKey? <==> IsDigitString(entries[i].0))
  {
    if entries == [] then []
    else [(EntryKey(entries[0].0), entries[0].1)] + GetRecordEntries(entries[1..])
  }

  /** Every non-negative number comes back from its property name as that
      number; a negative one comes back as the string "-…". */
  lemma NumberKeyRoundTrip(n: int)
    ensures n >= 0 ==> EntryKey(PropKey(NumKey(n))) == NumKey(n)
    ensures n < 0 ==> EntryKey(PropKey(NumKey(n))) == StrKey(PropKey(NumKey(n)))
  {
    if n >= 0 {
      DecimalRoundTrip(n);
    } else {
      assert PropKey(NumKey(n))[0] == '-';
    }
  }

  /** Rewriting a property name into an entry key and rendering that key
      again gives back the same property name exactly when the name is not
      a digit string with a leading zero. */
  lemma EntryKeyNamesSameProperty(s: string)
    ensures PropKey(EntryKey(s)) == s <==> !HasLeadingZero(s)
  {
    if IsDigitString(s) {
      if HasLeadingZero(s) {
        assert !HasLeadingZero(Decimal(DigitsValue(s)));
      } else {
        CanonicalDigitsRoundTrip(s);
      }
    }
  }

  lemma OtherKeysStayStrings()
    ensures EntryKey("") == StrKey("")
    ensures EntryKey("-1") == StrKey("-1")
    ensures EntryKey("1.5") == StrKey("1.5")
    ensures EntryKey("a1") == StrKey("a1")
    ensures EntryKey("42") == NumKey(42)
    ensures EntryKey("007") == NumKey(7)
  {
    assert !IsDigit('-') && !IsDigit('.') && !IsDigit('a');
    assert "-1"[0] == '-' && "1.5"[1] == '.' && "a1"[0] == 'a';
    assert "42"[..1] == "4" && "4"[..0] == "";
    assert "007"[..2] == "00" && "00"[..1] == "0" && "0"[..0] == "";
  }
}
