/** A few of Go's string functions. */
module Text {
  predicate IsSpace(c: char) {
    c == ' ' || c == '\t' || c == '\n' || c == '\r' || c as int == 11 || c as int == 12
  }

  function TrimLeft(s: string): (t: string)
    ensures |t| <= |s| && t == s[|s| - |t|..]
    ensures t != "" ==> !IsSpace(t[0])
    ensures forall i | 0 <= i < |s| - |t| :: IsSpace(s[i])
  {
    if s != "" && IsSpace(s[0]) then TrimLeft(s[1..]) else s
  }

  function TrimRight(s: string): (t: string)
    ensures t <= s
    ensures t != "" ==> !IsSpace(t[|t| - 1])
    ensures forall i | |t| <= i < |s| :: IsSpace(s[i])
  {
    if s != "" && IsSpace(s[|s| - 1]) then TrimRight(s[..|s| - 1]) else s
  }

  function TrimSpace(s: string): string {
    TrimRight(TrimLeft(s))
  }

  /** strings.Join. */
  function Join(parts: seq<string>, sep: string): string {
    if parts == [] then ""
    else if |parts| == 1 then parts[0]
    else parts[0] + sep + Join(parts[1..], sep)
  }

  lemma {:induction false} JoinConcat(a: seq<string>, b: seq<string>, sep: string)
    requires a != [] && b != []
    ensures Join(a + b, sep) == Join(a, sep) + sep + Join(b, sep)
  {
    if |a| == 1 {
      assert (a + b)[1..] == b;
    } else {
      assert (a + b)[1..] == a[1..] + b;
      JoinConcat(a[1..], b, sep);
    }
  }

  function Digit(d: nat): char
    requires d < 10
  {
    '0' + d as char
  }

  /** The decimal form of a natural number. */
  function Natural(n: nat): (s: string)
    ensures s != "" && forall i | 0 <= i < |s| :: '0' <= s[i] <= '9'
  {
    if n < 10 then [Digit(n)] else Natural(n / 10) + [Digit(n % 10)]
  }

  /** fmt's %d. */
  function Itoa(n: int): string {
    if n < 0 then "-" + Natural(-n) else Natural(n)
  }

  const MAX_INT := 0x7FFF_FFFF_FFFF_FFFF

  datatype Option<T> = None | Some(value: T)

  function ParseNatural(s: string): Option<int> {
    if s == "" then None
    else
      var last := s[|s| - 1];
      if !('0' <= last <= '9') then None
      else
        var d := (last - '0') as int;
        if |s| == 1 then Some(d)
        else
          match ParseNatural(s[..|s| - 1])
          case None => None
          case Some(n) => Some(10 * n + d)
  }

  /** strconv.Atoi on a 64-bit platform: an optional sign, digits, and a range check. */
  function Atoi(s: string): Option<int> {
    if s == "" then None
    else if s[0] == '-' then
      match ParseNatural(s[1..])
      case None => None
      case Some(n) => if n <= MAX_INT + 1 then Some(-n) else None
    else
      match ParseNatural(if s[0] == '+' then s[1..] else s)
      case None => None
      case Some(n) => if n <= MAX_INT then Some(n) else None
  }

  lemma {:induction false} NaturalParses(n: nat)
    ensures ParseNatural(Natural(n)) == Some(n)
  {
    if n >= 10 {
      NaturalParses(n / 10);
      assert Natural(n)[..|Natural(n)| - 1] == Natural(n / 10);
    }
  }

  lemma {:induction false} DigitsOnly(s: string)
    ensures ParseNatural(s).Some? <==> s != "" && forall i | 0 <= i < |s| :: '0' <= s[i] <= '9'
    ensures ParseNatural(s).Some? ==> ParseNatural(s).value >= 0
  {
    if |s| > 1 {
      DigitsOnly(s[..|s| - 1]);
      assert forall i | 0 <= i < |s| - 1 :: s[i] == s[..|s| - 1][i];
    }
  }

  /** Atoi reads nothing but a decimal number: an optional sign and digits, within 64 bits. */
  lemma AtoiReads(s: string)
    ensures Atoi(s).Some? ==>
      var digits := if s[0] == '-' || s[0] == '+' then s[1..] else s;
      && digits != "" && (forall i | 0 <= i < |digits| :: '0' <= digits[i] <= '9')
      && (if s[0] == '-' then -MAX_INT - 1 <= Atoi(s).value <= 0 else 0 <= Atoi(s).value <= MAX_INT)
  {
    if s != "" {
      DigitsOnly(s[1..]);
      DigitsOnly(s);
    }
  }

  /** Atoi reads back what %d printed. */
  lemma ItoaParses(n: int)
    requires -MAX_INT - 1 <= n <= MAX_INT
    ensures Atoi(Itoa(n)) == Some(n)
  {
    var digits := Natural(if n < 0 then -n else n);
    NaturalParses(if n < 0 then -n else n);
    if n < 0 {
      assert ("-" + digits)[1..] == digits;
    } else {
      assert '0' <= digits[0];
    }
  }

  lemma {:induction false} TrimLeftPadded(left: string, s: string)
    requires s != "" && !IsSpace(s[0])
    requires forall i | 0 <= i < |left| :: IsSpace(left[i])
    ensures TrimLeft(left + s) == s
  {
    if left != "" {
      assert (left + s)[1..] == left[1..] + s;
      TrimLeftPadded(left[1..], s);
    } else {
      assert left + s == s;
    }
  }

  lemma {:induction false} TrimRightPadded(s: string, right: string)
    requires s != "" && !IsSpace(s[|s| - 1])
    requires forall i | 0 <= i < |right| :: IsSpace(right[i])
    ensures TrimRight(s + right) == s
  {
    if right != "" {
      assert (s + right)[..|s + right| - 1] == s + right[..|right| - 1];
      TrimRightPadded(s, right[..|right| - 1]);
    } else {
      assert s + right == s;
    }
  }

  /** Trimming removes the white space around a text that has none at its ends, and only that. */
  lemma TrimPadded(left: string, s: string, right: string)
    requires s != "" && !IsSpace(s[0]) && !IsSpace(s[|s| - 1])
    requires forall i | 0 <= i < |left| :: IsSpace(left[i])
    requires forall i | 0 <= i < |right| :: IsSpace(right[i])
    ensures TrimSpace(left + s + right) == s
  {
    assert left + s + right == left + (s + right);
    TrimLeftPadded(left, s + right);
    TrimRightPadded(s, right);
  }

  /** Trimming leaves nothing exactly of a text that is all white space. */
  lemma TrimmedAway(s: string)
    ensures TrimSpace(s) == "" <==> forall i | 0 <= i < |s| :: IsSpace(s[i])
  {
    var left := TrimLeft(s);
    assert left != "" ==> !IsSpace(left[0]);
  }
}
