/** Reading the CPU usage out of a cgroup's cpu.stat file
    (autoscaler/cgroup_monitoring/cgroup_monitoring.go). */
module CpuStat {
  import opened Prelude

  const INT64_MAX: int := 0x7FFF_FFFF_FFFF_FFFF

  // ----- the library functions the reader calls -----

  /** Go's unicode.IsSpace. */
  predicate IsSpace(c: char) {
    || c in "\t\n\U{0B}\U{0C}\r \U{85}\U{A0}\U{1680}\U{2028}\U{2029}\U{202F}\U{205F}\U{3000}"
    || '\U{2000}' <= c <= '\U{200A}'
  }

  /** strings.Split at newlines. */
  function Lines(s: string): (lines: seq<string>)
    ensures lines != []
  {
    if s == "" then [""]
    else
      var rest := Lines(s[1..]);
      if s[0] == '\n' then [""] + rest else [[s[0]] + rest[0]] + rest[1..]
  }

  /** strings.Fields. */
  function Fields(s: string): (fields: seq<string>)
    ensures s != "" && !IsSpace(s[0]) ==> fields != []
  {
    if s == "" then []
    else
      var rest := Fields(s[1..]);
      if IsSpace(s[0]) then rest
      else if |s| == 1 || IsSpace(s[1]) then [[s[0]]] + rest
      else [[s[0]] + rest[0]] + rest[1..]
  }

  predicate IsDigit(c: char) {
    '0' <= c <= '9'
  }

  predicate AllDigits(s: string) {
    s != "" && forall i | 0 <= i < |s| :: IsDigit(s[i])
  }

  function DigitValue(c: char): nat
    requires IsDigit(c)
  {
    c as int - '0' as int
  }

  function DigitsValue(s: string): nat
    requires forall i | 0 <= i < |s| :: IsDigit(s[i])
  {
    if s == "" then 0 else 10 * DigitsValue(Front(s)) + DigitValue(Last(s))
  }

  /** strconv.ParseInt in base 10 with 64 bits. */
  function ParseInt(s: string): Result<int, string> {
    if s == "" then Err("invalid syntax")
    else
      var signed := s[0] == '+' || s[0] == '-';
      var digits := if signed then s[1..] else s;
      if !AllDigits(digits) then Err("invalid syntax")
      else if s[0] == '-' then
        if DigitsValue(digits) <= INT64_MAX + 1 then Ok(-(DigitsValue(digits) as int)) else Err("value out of range")
      else
        if DigitsValue(digits) <= INT64_MAX then Ok(DigitsValue(digits)) else Err("value out of range")
  }

  // ----- the reader -----

  const USAGE: string := "usage_usec"

  /** The first line that starts with usage_usec and has two fields decides. */
  function Scan(lines: seq<string>): Result<int, string> {
    if lines == [] then Err("usage_usec not found")
    else if USAGE <= lines[0] && |Fields(lines[0])| == 2 then ParseInt(Fields(lines[0])[1])
    else Scan(lines[1..])
  }

  /** The line gives the usage: it starts with usage_usec and has two fields. */
  predicate Decides(line: string) {
    "usage_usec" <= line && |Fields(line)| == 2
  }

  method ReadCpuUsage(content: string) returns (usage: Result<int, string>)
    ensures usage == Scan(Lines(content))
    ensures forall k | 0 <= k < |Lines(content)| && Decides(Lines(content)[k]) &&
        (forall j | 0 <= j < k :: !Decides(Lines(content)[j])) ::
      usage == ParseInt(Fields(Lines(content)[k])[1])
    ensures (forall k | 0 <= k < |Lines(content)| :: !Decides(Lines(content)[k])) ==> usage.Err?
  {
    var lines := Lines(content);
    for i := 0 to |lines|
      invariant Scan(lines) == Scan(lines[i..])
      invariant forall j | 0 <= j < i :: !Decides(lines[j])
    {
      if USAGE <= lines[i] {
        var parts := Fields(lines[i]);
        if |parts| == 2 {
          return ParseInt(parts[1]);
        }
      }
    }
    return Err("usage_usec not found");
  }

  // ----- the file the kernel writes -----

  function Digits(n: nat): string {
    var last := ['0' + (n % 10) as char];
    if n < 10 then last else Digits(n / 10) + last
  }

  function Decimal(n: int): string {
    if n < 0 then "-" + Digits(-n) else Digits(n)
  }

  datatype Entry = Entry(key: string, value: string) {
    function Line(): string {
      key + " " + value
    }
  }

  function Print(entries: seq<Entry>): string {
    if entries == [] then "" else entries[0].Line() + "\n" + Print(entries[1..])
  }

  predicate IsWord(s: string) {
    forall i | 0 <= i < |s| :: !IsSpace(s[i])
  }

  predicate OneLine(s: string) {
    forall i | 0 <= i < |s| :: s[i] != '\n'
  }

  /** Keys without white space, values on one line. */
  predicate Printable(entries: seq<Entry>) {
    forall i | 0 <= i < |entries| :: IsWord(entries[i].key) && OneLine(entries[i].value)
  }

  // ----- the library functions are what their documentation says -----

  function Join(lines: seq<string>): string
    requires lines != []
  {
    if |lines| == 1 then lines[0] else lines[0] + "\n" + Join(lines[1..])
  }

  /** Splitting at newlines loses nothing: the lines have none, and joined by newlines they are the text. */
  lemma {:induction false} LinesJoinBack(s: string)
    ensures Join(Lines(s)) == s && forall i | 0 <= i < |Lines(s)| :: OneLine(Lines(s)[i])
  {
    if s != "" {
      LinesJoinBack(s[1..]);
      var rest := Lines(s[1..]);
      assert s == [s[0]] + s[1..];
      if s[0] == '\n' {
        assert ([""] + rest)[1..] == rest;
      } else {
        assert ([[s[0]] + rest[0]] + rest[1..])[1..] == rest[1..];
      }
    }
  }

  predicate IsBlank(s: string) {
    forall i | 0 <= i < |s| :: IsSpace(s[i])
  }

  /** The fields with the gaps before, between and after them. */
  function Spread(gaps: seq<string>, fields: seq<string>): string
    requires |gaps| == |fields| + 1
  {
    if fields == [] then gaps[0] else gaps[0] + fields[0] + Spread(gaps[1..], fields[1..])
  }

  /** The text is these fields with white space around them, and some between any two; the fields are
      words. So they are the maximal runs of other characters. */
  ghost predicate Separated(s: string, gaps: seq<string>, fields: seq<string>) {
    && |gaps| == |fields| + 1 && Spread(gaps, fields) == s
    && (forall i | 0 <= i < |gaps| :: IsBlank(gaps[i]))
    && (forall i | 0 < i < |gaps| - 1 :: gaps[i] != "")
    && (forall i | 0 <= i < |fields| :: fields[i] != "" && IsWord(fields[i]))
    && (gaps[0] != "" <==> s != "" && IsSpace(s[0])) && (s == "" ==> fields == [])
  }

  lemma SpaceFirst(c: char, s: string, gaps: seq<string>, fields: seq<string>)
    requires Separated(s, gaps, fields) && IsSpace(c)
    ensures Separated([c] + s, [[c] + gaps[0]] + gaps[1..], fields)
  {
    hide IsSpace;
    var gaps' := [[c] + gaps[0]] + gaps[1..];
    assert gaps'[1..] == gaps[1..] && IsBlank(gaps[0]) && ([c] + s)[0] == c;
    assert Spread(gaps', fields) == [c] + Spread(gaps, fields);
  }

  lemma WordFirst(c: char, s: string, gaps: seq<string>, fields: seq<string>)
    requires Separated(s, gaps, fields) && !IsSpace(c) && (s == "" || IsSpace(s[0]))
    ensures Separated([c] + s, [""] + gaps, [[c]] + fields)
  {
    hide IsSpace;
    assert ([""] + gaps)[1..] == gaps && ([[c]] + fields)[1..] == fields && ([c] + s)[0] == c;
    assert Spread([""] + gaps, [[c]] + fields) == [c] + Spread(gaps, fields);
  }

  lemma LongerWordFirst(c: char, s: string, gaps: seq<string>, fields: seq<string>)
    requires Separated(s, gaps, fields) && !IsSpace(c) && s != "" && !IsSpace(s[0]) && fields != []
    ensures Separated([c] + s, gaps, [[c] + fields[0]] + fields[1..])
  {
    hide IsSpace;
    var fields' := [[c] + fields[0]] + fields[1..];
    assert fields'[1..] == fields[1..] && IsWord(fields[0]) && ([c] + s)[0] == c;
    assert Spread(gaps, fields') == [c] + Spread(gaps, fields);
  }

  lemma {:induction false} FieldsAreWords(s: string) returns (gaps: seq<string>)
    ensures Separated(s, gaps, Fields(s))
  {
    if s == "" {
      gaps := [""];
    } else {
      var rest := s[1..];
      gaps := FieldsAreWords(rest);
      assert s == [s[0]] + rest;
      hide Separated;
      if IsSpace(s[0]) {
        SpaceFirst(s[0], rest, gaps, Fields(rest));
        gaps := [[s[0]] + gaps[0]] + gaps[1..];
      } else if |s| == 1 || IsSpace(s[1]) {
        WordFirst(s[0], rest, gaps, Fields(rest));
        gaps := [""] + gaps;
      } else {
        LongerWordFirst(s[0], rest, gaps, Fields(rest));
      }
    }
  }

  /** A text is parsed exactly if it is one sign or none, then digits, of a value that fits 64 bits. */
  lemma ParsesExactly(s: string, n: int)
    ensures ParseInt(s) == Ok(n) <==>
      && s != "" && var digits := if s[0] in "+-" then s[1..] else s;
      && digits != "" && (forall i | 0 <= i < |digits| :: '0' <= digits[i] <= '9')
      && n == (if s[0] == '-' then -1 else 1) * (DigitsValue(digits) as int)
      && -0x8000_0000_0000_0000 <= n <= 0x7FFF_FFFF_FFFF_FFFF
  {
  }

  // ----- the round trip -----

  lemma {:induction false} DigitsReadBack(n: nat)
    ensures AllDigits(Digits(n)) && DigitsValue(Digits(n)) == n
  {
    if n >= 10 {
      DigitsReadBack(n / 10);
      assert Front(Digits(n)) == Digits(n / 10);
    } else {
      assert Front(Digits(n)) == "";
    }
  }

  /** Every 64-bit value is read back from its decimal form. */
  lemma DecimalReadsBack(n: int)
    requires -INT64_MAX - 1 <= n <= INT64_MAX
    ensures ParseInt(Decimal(n)) == Ok(n)
    ensures Decimal(n) != "" && IsWord(Decimal(n)) && OneLine(Decimal(n))
  {
    var abs := if n < 0 then -n else n;
    DigitsReadBack(abs);
    assert Decimal(n) == if n < 0 then ['-'] + Digits(abs) else Digits(abs);
    hide Digits, DigitsValue;
    assert n >= 0 ==> IsDigit(Decimal(n)[0]);
    assert n < 0 ==> Decimal(n)[1..] == Digits(abs);
    hide ParseInt;
    forall i | 0 <= i < |Decimal(n)| ensures !IsSpace(Decimal(n)[i]) && Decimal(n)[i] != '\n' {
      assert IsDigit(Decimal(n)[i]) || Decimal(n)[i] == '-';
    }
  }

  lemma {:induction false} LinesOfLine(line: string, rest: string)
    requires OneLine(line)
    ensures Lines(line + "\n" + rest) == [line] + Lines(rest)
  {
    var s := line + "\n" + rest;
    if line == "" {
      assert s[1..] == rest;
    } else {
      LinesOfLine(line[1..], rest);
      assert s[1..] == line[1..] + "\n" + rest;
      assert [line[0]] + line[1..] == line;
    }
  }

  lemma {:induction false} FieldsOfWord(word: string, rest: string)
    requires word != "" && IsWord(word) && (rest == "" || IsSpace(rest[0]))
    ensures Fields(word + rest) == [word] + Fields(rest)
  {
    var s := word + rest;
    assert s[1..] == word[1..] + rest;
    if |word| == 1 {
      assert s[1..] == rest && word == [word[0]];
    } else {
      FieldsOfWord(word[1..], rest);
      assert [word[0]] + word[1..] == word;
    }
  }

  lemma FieldsOfEntry(e: Entry)
    requires e.key != "" && IsWord(e.key) && e.value != "" && IsWord(e.value)
    ensures Fields(e.Line()) == [e.key, e.value]
  {
    FieldsOfWord(e.value, "");
    assert e.value + "" == e.value;
    assert (" " + e.value)[1..] == e.value;
    FieldsOfWord(e.key, " " + e.value);
    assert e.key + " " + e.value == e.key + (" " + e.value);
  }

  /** A line starts with usage_usec exactly when its key does: the key ends at a space. */
  lemma PrefixIsKey(e: Entry)
    ensures USAGE <= e.Line() <==> USAGE <= e.key
  {
    var line := e.Line();
    assert |e.key| < |USAGE| ==> line[|e.key|] == ' ' && USAGE[|e.key|] != ' ';
    assert forall i | 0 <= i < |e.key| :: line[i] == e.key[i];
  }

  /** Round trip: whatever else the file lists, reading it back returns the value of its first
      usage_usec entry. */
  lemma {:induction false} UsageReadsBack(entries: seq<Entry>, k: nat, n: int)
    requires Printable(entries) && k < |entries| && -INT64_MAX - 1 <= n <= INT64_MAX
    requires USAGE <= entries[k].key && entries[k].value == Decimal(n)
    requires forall i | 0 <= i < k :: !(USAGE <= entries[i].key)
    ensures Scan(Lines(Print(entries))) == Ok(n)
  {
    var e := entries[0];
    LinesOfEntry(e, Print(entries[1..]));
    PrefixIsKey(e);
    if k == 0 {
      DecimalReadsBack(n);
      FieldsOfEntry(e);
    } else {
      UsageReadsBack(entries[1..], k - 1, n);
    }
  }

  lemma LinesOfEntry(e: Entry, rest: string)
    requires IsWord(e.key) && OneLine(e.value)
    ensures Lines(e.Line() + "\n" + rest) == [e.Line()] + Lines(rest)
  {
    forall i | 0 <= i < |e.Line()| ensures e.Line()[i] != '\n' {
      if i < |e.key| { assert !IsSpace(e.key[i]) && IsSpace('\n'); }
    }
    LinesOfLine(e.Line(), rest);
  }

  /** Without such an entry the file has no usage. */
  lemma {:induction false} NoUsageReadsAsError(entries: seq<Entry>)
    requires Printable(entries) && forall i | 0 <= i < |entries| :: !(USAGE <= entries[i].key)
    ensures Scan(Lines(Print(entries))).Err?
  {
    if entries != [] {
      LinesOfEntry(entries[0], Print(entries[1..]));
      PrefixIsKey(entries[0]);
      NoUsageReadsAsError(entries[1..]);
    } else {
      assert Lines("") == [""];
      assert !(USAGE <= "");
    }
  }
}
