module Options {
  datatype Option<+T> = None | Some(value: T)
}

/**
 The text normalisation that keys, currencies and URLs go through.
 */
module Text {

  /** Unicode white space, as Go's strings.TrimSpace removes it. */
  predicate IsSpace(c: char) {
    || '\t' <= c <= '\r' || c == ' ' || c == '\U{85}' || c == '\U{A0}' || c == '\U{1680}'
    || '\U{2000}' <= c <= '\U{200A}' || c == '\U{2028}' || c == '\U{2029}' || c == '\U{202F}'
    || c == '\U{205F}' || c == '\U{3000}'
  }

  /** Upper case of the letters that can end up in a currency code. */
  function UpperChar(c: char): char {
    if 'a' <= c <= 'z' then (c as int - 'a' as int + 'A' as int) as char
    else if c == '\U{131}' then 'I'
    else if c == '\U{17F}' then 'S'
    else c
  }

  function ToUpper(s: string): (t: string)
    ensures |t| == |s| && forall i :: 0 <= i < |s| ==> t[i] == UpperChar(s[i])
  {
    seq(|s|, i requires 0 <= i < |s| => UpperChar(s[i]))
  }

  function TrimLeft(s: string): (t: string)
    ensures t == "" || !IsSpace(t[0])
    ensures |t| <= |s|
  {
    if s != "" && IsSpace(s[0]) then TrimLeft(s[1..]) else s
  }

  function TrimRight(s: string): (t: string)
    ensures t == "" || !IsSpace(t[|t| - 1])
    ensures t <= s
  {
    if s != "" && IsSpace(s[|s| - 1]) then TrimRight(s[..|s| - 1]) else s
  }

  function Trim(s: string): string {
    TrimRight(TrimLeft(s))
  }

  lemma TrimmedEnds(s: string)
    ensures Trim(s) == "" || (!IsSpace(Trim(s)[0]) && !IsSpace(Trim(s)[|Trim(s)| - 1]))
  {
    var t := TrimLeft(s);
    assert Trim(s) <= t;
  }

  /** Trimming what has been trimmed changes nothing. */
  lemma TrimTwice(s: string)
    ensures Trim(Trim(s)) == Trim(s)
  {
    TrimmedEnds(s);
  }

  lemma UpperSpace(c: char)
    ensures IsSpace(UpperChar(c)) <==> IsSpace(c)
    ensures UpperChar(UpperChar(c)) == UpperChar(c)
  {
  }

  lemma {:induction false} UpperTrimLeft(s: string)
    ensures TrimLeft(ToUpper(s)) == ToUpper(TrimLeft(s))
  {
    if s != "" {
      UpperSpace(s[0]);
      UpperTrimLeft(s[1..]);
      assert ToUpper(s)[1..] == ToUpper(s[1..]);
    }
  }

  lemma {:induction false} UpperTrimRight(s: string)
    ensures TrimRight(ToUpper(s)) == ToUpper(TrimRight(s))
  {
    if s != "" {
      UpperSpace(s[|s| - 1]);
      UpperTrimRight(s[..|s| - 1]);
      assert ToUpper(s)[..|s| - 1] == ToUpper(s[..|s| - 1]);
    }
  }

  /** Validation trims after upper-casing, the service upper-cases after trimming: same text. */
  lemma TrimUpperCommute(s: string)
    ensures Trim(ToUpper(s)) == ToUpper(Trim(s))
  {
    UpperTrimLeft(s);
    UpperTrimRight(TrimLeft(s));
  }

  lemma UpperTwice(s: string)
    ensures ToUpper(ToUpper(s)) == ToUpper(s)
  {
    forall i | 0 <= i < |s| ensures ToUpper(ToUpper(s))[i] == ToUpper(s)[i] { UpperSpace(s[i]); }
  }

  predicate AllSpace(s: string) {
    forall i :: 0 <= i < |s| ==> IsSpace(s[i])
  }

  lemma {:induction false} PaddedLeft(a: string, s: string)
    requires AllSpace(a)
    ensures TrimLeft(a + s) == TrimLeft(s)
  {
    if a == "" {
      assert a + s == s;
    } else {
      assert (a + s)[1..] == a[1..] + s;
      PaddedLeft(a[1..], s);
    }
  }

  lemma {:induction false} PaddedRight(s: string, b: string)
    requires AllSpace(b)
    ensures TrimRight(s + b) == TrimRight(s)
  {
    if b == "" {
      assert s + b == s;
    } else {
      assert (s + b)[..|s + b| - 1] == s + b[..|b| - 1];
      PaddedRight(s, b[..|b| - 1]);
    }
  }

  lemma {:induction false} LeftOfText(s: string, b: string)
    requires s != "" && !IsSpace(s[0])
    ensures TrimLeft(s + b) == s + b
  {
    assert (s + b)[0] == s[0];
  }

  /** Padding does not matter: a text that begins and ends without space is what trimming leaves of it. */
  lemma PaddingIsTrimmed(a: string, s: string, b: string)
    requires AllSpace(a) && AllSpace(b) && s != "" && !IsSpace(s[0]) && !IsSpace(s[|s| - 1])
    ensures Trim(a + s + b) == s
  {
    assert a + s + b == a + (s + b);
    PaddedLeft(a, s + b);
    LeftOfText(s, b);
    PaddedRight(s, b);
  }

  /** What trimming removes is white space, and of a blank text nothing is left. */
  lemma {:induction false} BlankIsTrimmed(s: string)
    ensures AllSpace(s) <==> Trim(s) == ""
  {
    if s != "" && IsSpace(s[0]) {
      BlankIsTrimmed(s[1..]);
      assert s == [s[0]] + s[1..];
    } else if s != "" {
      FirstStays(s);
    }
  }

  lemma {:induction false} FirstStays(s: string)
    requires s != "" && !IsSpace(s[0])
    ensures TrimRight(s) != ""
  {
    if IsSpace(s[|s| - 1]) {
      FirstStays(s[..|s| - 1]);
    }
  }

  /** The blanks of ASCII are white space, its visible characters are not. */
  lemma AsciiSpaces(c: char)
    requires c < '\U{80}'
    ensures IsSpace(c) <==> c in {' ', '\t', '\n', '\U{B}', '\U{C}', '\r'}
  {
  }

  /** A letter in either case has the same upper case, which is the capital. */
  lemma CaseIsFolded(i: nat)
    requires i < 26
    ensures var small, capital := ('a' as int + i) as char, ('A' as int + i) as char;
      UpperChar(small) == capital && UpperChar(capital) == capital
  {
  }

  /** Length in UTF-8 bytes, which is what Go's len counts. */
  function ByteLen(s: string): nat {
    if s == "" then 0
    else
      var n := if s[0] < '\U{80}' then 1 else if s[0] < '\U{800}' then 2 else if s[0] < '\U{10000}' then 3 else 4;
      n + ByteLen(s[1..])
  }
}
