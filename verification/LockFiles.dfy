/** The PID in the daemon's lock file. */
module LockFiles {
  import opened Decimals
  import opened Results

  /** A file that cannot be read as text is as good as one with no PID in it. */
  datatype Content = Unreadable | Text(text: string)

  const U32_RANGE: nat := 0x1_0000_0000

  predicate IsWhitespace(c: char) {
    || '\t' <= c <= '\r' || c == ' ' || c == '\U{85}' || c == '\U{A0}' || c == '\U{1680}'
    || '\U{2000}' <= c <= '\U{200A}' || c == '\U{2028}' || c == '\U{2029}' || c == '\U{202F}'
    || c == '\U{205F}' || c == '\U{3000}'
  }

  predicate AllWhitespace(s: string) {
    forall c <- s :: IsWhitespace(c)
  }

  function TrimStart(s: string): string {
    if s != [] && IsWhitespace(s[0]) then TrimStart(s[1..]) else s
  }

  function TrimEnd(s: string): string {
    if s != [] && IsWhitespace(s[|s| - 1]) then TrimEnd(s[..|s| - 1]) else s
  }

  function Trim(s: string): string {
    TrimEnd(TrimStart(s))
  }

  /** `str::parse::<u32>`: an optional plus sign, then digits, in range. */
  function ParseU32(s: string): Option<nat> {
    var digits := if s != [] && s[0] == '+' then s[1..] else s;
    if digits != [] && AllDigits(digits) && Value(digits) < U32_RANGE then Some(Value(digits)) else None
  }

  function ReadAsU32(content: Content): Option<nat> {
    match content
    case Unreadable => None
    case Text(text) => ParseU32(Trim(text))
  }

  /** A text that stands for a PID: digits, perhaps after a plus sign, between whitespace. */
  ghost predicate Denotes(text: string, before: string, digits: string, after: string, pid: nat) {
    && (text == before + digits + after || text == before + "+" + digits + after)
    && AllWhitespace(before) && AllWhitespace(after)
    && digits != [] && AllDigits(digits) && Value(digits) == pid < U32_RANGE
  }

  lemma {:induction false} TrimStartSkips(before: string, s: string)
    requires AllWhitespace(before) && s != [] && !IsWhitespace(s[0])
    ensures TrimStart(before + s) == s
  {
    if before == [] {
      assert before + s == s;
    } else {
      TrimStartSkips(before[1..], s);
      assert (before + s)[1..] == before[1..] + s;
    }
  }

  lemma {:induction false} TrimEndSkips(s: string, after: string)
    requires AllWhitespace(after) && s != [] && !IsWhitespace(s[|s| - 1])
    ensures TrimEnd(s + after) == s
  {
    if after == [] {
      assert s + after == s;
    } else {
      TrimEndSkips(s, after[..|after| - 1]);
      assert (s + after)[..|s + after| - 1] == s + after[..|after| - 1];
    }
  }

  lemma {:induction false} TrimStartDrops(s: string) returns (before: string)
    ensures s == before + TrimStart(s) && AllWhitespace(before)
  {
    if s != [] && IsWhitespace(s[0]) {
      var rest := TrimStartDrops(s[1..]);
      before := [s[0]] + rest;
    } else {
      before := [];
    }
  }

  lemma {:induction false} TrimEndDrops(s: string) returns (after: string)
    ensures s == TrimEnd(s) + after && AllWhitespace(after)
    decreases |s|
  {
    if s != [] && IsWhitespace(s[|s| - 1]) {
      var rest := TrimEndDrops(s[..|s| - 1]);
      after := rest + [s[|s| - 1]];
    } else {
      after := [];
    }
  }

  /** Whatever is read denotes the PID. */
  lemma ReadDenotes(text: string)
    requires ReadAsU32(Text(text)).Some?
    ensures exists before, digits, after :: Denotes(text, before, digits, after, ReadAsU32(Text(text)).value)
  {
    var before := TrimStartDrops(text);
    var after := TrimEndDrops(TrimStart(text));
    var core := Trim(text);
    hide TrimStart, TrimEnd, IsWhitespace, Value;
    var digits := if core[0] == '+' then core[1..] else core;
    assert core == digits || core == "+" + digits;
    assert text == before + core + after;
    assert Denotes(text, before, digits, after, Value(digits));
  }

  /** Whatever denotes a PID is read as this PID. */
  lemma DenotedIsRead(text: string, before: string, digits: string, after: string, pid: nat)
    requires Denotes(text, before, digits, after, pid)
    ensures ReadAsU32(Text(text)) == Some(pid)
  {
    var core := if text == before + digits + after then digits else "+" + digits;
    assert text == before + (core + after);
    assert IsDigit(digits[0]) && IsDigit(digits[|digits| - 1]);
    assert (core + after)[0] == core[0] && core[|core| - 1] == digits[|digits| - 1];
    TrimStartSkips(before, core + after);
    TrimEndSkips(core, after);
    assert ("+" + digits)[1..] == digits;
  }

  /** What a daemon writes is read back. */
  lemma WrittenPidIsRead(pid: nat, newline: string)
    requires pid < U32_RANGE && AllWhitespace(newline)
    ensures ReadAsU32(Text(Decimal(pid) + newline)) == Some(pid)
  {
    ValueOfDecimal(pid);
    assert Decimal(pid) + newline == [] + Decimal(pid) + newline;
    DenotedIsRead(Decimal(pid) + newline, [], Decimal(pid), newline, pid);
  }

  /** A printed number between whitespace is read exactly when it has 32 bits. */
  lemma ReadIs32Bits(n: nat, before: string, after: string)
    requires AllWhitespace(before) && AllWhitespace(after)
    ensures ReadAsU32(Text(before + Decimal(n) + after)) == if n <= 4294967295 then Some(n) else None
  {
    ValueOfDecimal(n);
    var digits := Decimal(n);
    assert IsDigit(digits[0]) && IsDigit(digits[|digits| - 1]);
    hide Decimal, Value, TrimStart, TrimEnd, AllWhitespace;
    assert before + digits + after == before + (digits + after);
    TrimStartSkips(before, digits + after);
    TrimEndSkips(digits, after);
  }

  /** A newline, with or without a carriage return, a tab and a space are whitespace; digits are not. */
  lemma LineEndsAreWhitespace(c: char)
    ensures AllWhitespace("\n") && AllWhitespace("\r\n") && AllWhitespace(" \t")
    ensures '!' <= c <= '~' ==> !IsWhitespace(c)
  {
  }

  lemma NothingToTrim(s: string)
    requires s != [] && !IsWhitespace(s[0]) && !IsWhitespace(s[|s| - 1])
    ensures Trim(s) == s
  {
  }

  /** A text with anything but digits after its first character is no PID, and neither is an empty one. */
  lemma OtherTextsAreNotRead(text: string)
    requires text == [] || (!IsWhitespace(text[0]) && !IsWhitespace(text[|text| - 1]))
    requires text != [] ==> text[0] != '+' && exists i :: 0 <= i < |text| && !IsDigit(text[i])
    ensures ReadAsU32(Text(text)) == None
  {
    if text != [] {
      NothingToTrim(text);
      var i :| 0 <= i < |text| && !IsDigit(text[i]);
      assert text[i] in text;
    }
  }
}
