/** The text form of a page cursor, "<unix nanoseconds>:<id>", and its parser for untrusted input. */
module CursorText {
  import opened Domain
  import opened Paging

  const MAX_INT64 := 0x7fff_ffff_ffff_ffff
  predicate IsInt64(n: int) { -MAX_INT64 - 1 <= n <= MAX_INT64 }

  predicate IsDigit(c: char) { '0' <= c <= '9' }
  predicate AllDigits(s: string) { forall c | c in s :: IsDigit(c) }

  function Digits(n: nat): string {
    if n < 10 then ['0' + n as char] else Digits(n / 10) + ['0' + (n % 10) as char]
  }

  function FormatInt(n: int): string { if n < 0 then "-" + Digits(-n) else Digits(n) }

  function ValueOf(s: string): nat
    requires AllDigits(s)
  {
    if s == [] then 0
    else
      var last := s[|s| - 1];
      assert last in s;
      10 * ValueOf(s[..|s| - 1]) + (last as int - '0' as int)
  }

  /** `strconv.ParseInt(s, 10, 64)`: an optional sign, at least one digit, in range. */
  function ParseInt(s: string): Option<int> {
    var signed := s != [] && (s[0] == '+' || s[0] == '-');
    var digits := if signed then s[1..] else s;
    if digits == [] || !AllDigits(digits) then None
    else
      var n: int := if signed && s[0] == '-' then 0 - ValueOf(digits) else ValueOf(digits);
      if IsInt64(n) then Some(n) else None
  }

  function IndexOfColon(s: string): (i: nat)
    ensures i <= |s| && ':' !in s[..i] && (i < |s| ==> s[i] == ':')
  {
    if s == [] || s[0] == ':' then 0
    else
      var i := 1 + IndexOfColon(s[1..]);
      assert s[..i] == [s[0]] + s[1..][..i - 1];
      i
  }

  function Encode(c: Cursor): string {
    if c.IsZero() then "" else FormatInt(c.ts) + ":" + FormatInt(c.id)
  }

  function Parse(s: string): Option<Cursor> {
    var i := IndexOfColon(s);
    if i == |s| then None
    else
      var ts, id := ParseInt(s[..i]), ParseInt(s[i + 1..]);
      if ts.None? || id.None? || id.value < 1 || ts.value < 1 then None else Some(Cursor(ts.value, id.value))
  }

  lemma {:induction false} DigitsAreDigits(n: nat)
    ensures Digits(n) != [] && AllDigits(Digits(n)) && ValueOf(Digits(n)) == n
  {
    if n >= 10 {
      DigitsAreDigits(n / 10);
      var s := Digits(n);
      assert s[..|s| - 1] == Digits(n / 10);
    }
  }

  lemma UnsignedParses(n: nat)
    requires IsInt64(n)
    ensures ParseInt(Digits(n)) == Some(n) && ':' !in Digits(n)
  {
    DigitsAreDigits(n);
    assert Digits(n)[0] in Digits(n);
  }

  lemma SignedParses(n: int)
    requires n >= 0 && IsInt64(-n)
    ensures ParseInt("-" + Digits(n)) == Some(-n) && ':' !in "-" + Digits(n)
  {
    DigitsAreDigits(n);
    var s := "-" + Digits(n);
    assert s[0] == '-' && s[1..] == Digits(n);
    hide Digits;
  }

  lemma FormatParses(n: int)
    requires IsInt64(n)
    ensures ParseInt(FormatInt(n)) == Some(n)
    ensures ':' !in FormatInt(n)
  {
    if n < 0 {
      SignedParses(-n);
    } else {
      UnsignedParses(n);
    }
    hide ParseInt, Digits;
  }

  lemma CutAtColon(a: string, b: string)
    requires ':' !in a
    ensures IndexOfColon(a + ":" + b) == |a|
  {
    var s := a + ":" + b;
    var i := IndexOfColon(s);
    assert s[|a|] == ':';
    assert forall j | 0 <= j < i :: s[..i][j] == s[j];
    assert forall j | 0 <= j < |a| :: s[j] == a[j];
    assert i == |a|;
  }

  /** A cursor with a real id survives the trip through its text exactly when its time is positive; one that is not
      (the event's time was the zero time) is refused, and so is the empty text of "no more pages". */
  lemma CursorRoundTrip(c: Cursor)
    requires IsInt64(c.ts) && IsInt64(c.id) && c.id >= 1
    ensures Parse(Encode(c)) == if c.ts >= 1 then Some(c) else None
    ensures Parse(Encode(NO_CURSOR)) == None
  {
    var a, b := FormatInt(c.ts), FormatInt(c.id);
    FormatParses(c.ts);
    FormatParses(c.id);
    CutAtColon(a, b);
    var s := a + ":" + b;
    assert s[..|a|] == a && s[|a| + 1..] == b;
    hide ParseInt, FormatInt, IndexOfColon;
  }

  /** Whatever the text, a parsed cursor is one that `Encode` could have produced: encoding it and parsing again
      gives the same cursor. */
  lemma ParsedCursorsAreReal(s: string)
    requires Parse(s).Some?
    ensures var c := Parse(s).value; c.ts >= 1 && c.id >= 1 && !c.IsZero() && Parse(Encode(c)) == Some(c)
  {
    CursorRoundTrip(Parse(s).value);
  }
}
