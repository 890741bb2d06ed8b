/** CConfReader: the ini scanner over its buffer, against a reader of lines. */
module Conf {
  import opened Prelude

  const NUL: char := '\0'

  predicate IsNewline(c: char) {
    c == '\n' || c == '\r'
  }

  predicate IsSpace(c: char) {
    c == ' ' || ('\t' <= c <= '\r')
  }

  // ----- the reference reader -----

  /** The length of the line at the beginning of t. */
  function LineLength(t: string): (n: nat)
    ensures n <= |t|
  {
    if t == [] || IsNewline(t[0]) then 0 else 1 + LineLength(t[1..])
  }

  /** How far the first c is. */
  function Until(t: string, c: char): (n: nat)
    ensures n <= |t|
  {
    if t == [] || t[0] == c then 0 else 1 + Until(t[1..], c)
  }

  function Blanks(t: string): (n: nat)
    ensures n <= |t|
  {
    if t == [] || !IsSpace(t[0]) then 0 else 1 + Blanks(t[1..])
  }

  /** What a line says about a key: its text before the first '=' only has to be a beginning of the key. */
  function ValueIn(line: string, key: string): Option<string> {
    var n := Until(line, '=');
    if line != [] && line[0] != ';' && 0 < n < |line| && line[..n] <= key then Some(line[n + 1..]) else None
  }

  /** Outside a section of interest. `atStart`: t is at the start of a line. A section's name goes up to the
      next ']', over line ends too; it only has to be a beginning of the section asked for. */
  function Find(t: string, atStart: bool, section: string, key: string): Option<string>
    decreases |t|, 0
  {
    if t == [] then None
    else if atStart && t[0] == '[' then
      var n := Until(t[1..], ']');
      if !(t[1..n + 1] <= section) then Find(t[n + 1..], false, section, key)
      else if n + 1 == |t| then None
      else Enter(t[n + 2..], section, key)
    else Find(t[1..], IsNewline(t[0]), section, key)
  }

  /** Behind the ']' of a section of interest. */
  function Enter(t: string, section: string, key: string): Option<string>
    decreases |t|, 2
  {
    var n := Blanks(t);
    Lines(t[n..], n > 0 && IsNewline(t[n - 1]), section, key)
  }

  /** Inside a section of interest, at a line. */
  function Lines(t: string, atStart: bool, section: string, key: string): Option<string>
    decreases |t|, 1
  {
    if t == [] then None
    else if atStart && t[0] == '[' then Find(t, true, section, key)
    else
      var n := LineLength(t);
      if ValueIn(t[..n], key).Some? then ValueIn(t[..n], key)
      else if n == |t| then None
      else Lines(t[n + 1..], true, section, key)
  }

  // ----- strncmp -----

  function CharAt(s: string, k: nat): char {
    if k < |s| then s[k] else NUL
  }

  /** strncmp(a, b, n) == 0. */
  predicate SameUpTo(a: string, b: string, k: nat, n: nat)
    decreases n - k
  {
    k >= n || (CharAt(a, k) == CharAt(b, k) && (CharAt(a, k) == NUL || SameUpTo(a, b, k + 1, n)))
  }

  lemma {:induction false} SameIsPrefix(a: string, b: string, k: nat)
    requires NUL !in a && NUL !in b && k <= |a| && k <= |b| && a[..k] == b[..k]
    ensures SameUpTo(a, b, k, |a|) <==> a <= b
    ensures SameUpTo(b, a, k, |a|) <==> a <= b
    decreases |a| - k
  {
    if k < |a| {
      assert a[k] in a;
      if k < |b| && a[k] == b[k] {
        assert a[..k + 1] == a[..k] + [a[k]] && b[..k + 1] == b[..k] + [b[k]];
        SameIsPrefix(a, b, k + 1);
      }
    }
  }

  lemma {:induction false} LineLengthIs(t: string, n: nat)
    requires n <= |t| && (forall k | 0 <= k < n :: !IsNewline(t[k])) && (n < |t| ==> IsNewline(t[n]))
    ensures LineLength(t) == n
  {
    if n > 0 {
      LineLengthIs(t[1..], n - 1);
    }
  }

  lemma {:induction false} UntilIs(t: string, c: char, n: nat)
    requires n <= |t| && (forall k | 0 <= k < n :: t[k] != c) && (n < |t| ==> t[n] == c)
    ensures Until(t, c) == n
  {
    if n > 0 {
      UntilIs(t[1..], c, n - 1);
    }
  }

  lemma {:induction false} BlanksIs(t: string, n: nat)
    requires n <= |t| && (forall k | 0 <= k < n :: IsSpace(t[k])) && (n < |t| ==> !IsSpace(t[n]))
    ensures Blanks(t) == n
  {
    if n > 0 {
      BlanksIs(t[1..], n - 1);
    }
  }

  // ----- places in a text -----

  lemma LineAt(t: string, s: nat, i: nat)
    requires s <= i <= |t| && (forall k | s <= k < i :: !IsNewline(t[k])) && (i < |t| ==> IsNewline(t[i]))
    ensures LineLength(t[s..]) == i - s && t[s..][..i - s] == t[s..i]
    ensures i < |t| ==> t[s..][i - s + 1..] == t[i + 1..]
  {
    LineLengthIs(t[s..], i - s);
  }

  lemma LineRead(t: string, s: nat, i: nat, atStart: bool, section: string, key: string)
    requires s <= i <= |t| && (forall k | s <= k < i :: !IsNewline(t[k])) && (i < |t| ==> IsNewline(t[i]))
    requires s < |t| && !(atStart && t[s] == '[')
    ensures Lines(t[s..], atStart, section, key)
      == if ValueIn(t[s..i], key).Some? then ValueIn(t[s..i], key)
         else if i == |t| then None
         else Lines(t[i + 1..], true, section, key)
  {
    LineAt(t, s, i);
  }

  /** Where a section of interest ends. */
  lemma LinesEnd(t: string, i: nat, section: string, key: string)
    requires i <= |t| && (i < |t| ==> t[i] == '[')
    ensures Lines(t[i..], i < |t|, section, key) == if i < |t| then Find(t[i..], true, section, key) else None
    ensures i == |t| ==> Lines(t[i..], true, section, key) == None
  {
  }

  lemma EqualsAt(t: string, s: nat, j: nat, i: nat)
    requires s <= j <= i <= |t| && (forall k | s <= k < j :: t[k] != '=') && (j < i ==> t[j] == '=')
    ensures Until(t[s..i], '=') == j - s && t[s..i][..j - s] == t[s..j]
    ensures j < i ==> t[s..i][j - s + 1..] == t[j + 1..i]
  {
    UntilIs(t[s..i], '=', j - s);
  }

  lemma BraceAt(t: string, h: nat, i: nat)
    requires h < i <= |t| && (forall k | h < k < i :: t[k] != ']') && (i < |t| ==> t[i] == ']')
    ensures var n := i - h - 1;
      && Until(t[h..][1..], ']') == n && t[h..][1..n + 1] == t[h + 1..i] && t[h..][n + 1..] == t[i..]
      && (i < |t| ==> t[h..][n + 2..] == t[i + 1..])
  {
    assert t[h..][1..] == t[h + 1..];
    UntilIs(t[h + 1..], ']', i - h - 1);
  }

  lemma BlanksAt(t: string, s: nat, i: nat)
    requires s <= i <= |t| && (forall k | s <= k < i :: IsSpace(t[k])) && (i < |t| ==> !IsSpace(t[i]))
    ensures Blanks(t[s..]) == i - s && t[s..][i - s..] == t[i..]
  {
    BlanksIs(t[s..], i - s);
  }

  // ----- the scanner -----

  datatype Found = Found(secS: nat, secE: nat, keyS: nat, keyE: nat, valueS: nat, valueE: nat)

  class ConfReader {
    const buffer: array<char>
    const bufferSize: nat

    constructor (buffer: array<char>, bufferSize: nat)
      ensures this.buffer == buffer && this.bufferSize == bufferSize
    {
      this.buffer := buffer;
      this.bufferSize := bufferSize;
    }

    /** The text is n characters long, and two NULs follow it. */
    ghost predicate Terminated(n: nat)
      reads buffer
    {
      && n + 2 <= buffer.Length && buffer[n] == NUL == buffer[n + 1]
      && forall k | 0 <= k < n :: buffer[k] != NUL
    }

    ghost function Text(n: nat): string
      requires n <= buffer.Length
      reads buffer
    {
      buffer[..n]
    }

    /** The key, the '=' and the value stand one behind the other. */
    ghost predicate KeyAt(f: Found, key: string, n: nat)
      requires n <= buffer.Length
      reads buffer
    {
      && f.secS < f.secE < f.keyS <= f.keyE && f.keyE + 2 == f.valueS <= f.valueE <= n
      && buffer[f.keyE + 1] == '=' && Text(n)[f.keyS..f.keyE + 1] <= key
    }

    /** One line of a section, from `start` to its end i. */
    method MatchLine(key: string, start: nat, i: nat, ghost n: nat) returns (equals: Option<nat>)
      requires Terminated(n) && NUL !in key && start <= i <= n
      requires forall k | start <= k < i :: !IsNewline(buffer[k])
      requires i == n || IsNewline(buffer[i])
      ensures equals.Some? ==>
        start < equals.value < i && buffer[equals.value] == '=' && Text(n)[start..equals.value] <= key
      ensures ValueIn(Text(n)[start..i], key)
        == if equals.Some? then Some(Text(n)[equals.value + 1..i]) else None
    {
      hide Until;
      ghost var t := Text(n);
      var j := start;
      equals := None;
      if buffer[j] != ';' {
        while j < i && buffer[j] != '='
          invariant start <= j <= i
          invariant forall k | start <= k < j :: buffer[k] != '='
          invariant j == start || buffer[j] != '='
        {
          j := j + 1;
          if buffer[j] == '=' {
            EqualsAt(t, start, j, i);
            var name := buffer[start..j];
            assert forall k | 0 <= k < |name| :: name[k] == t[start + k];
            assert name == t[start..j];
            SameIsPrefix(name, key, 0);
            if SameUpTo(key, name, 0, |name|) {
              equals := Some(j);
            }
            return;
          }
        }
        EqualsAt(t, start, j, i);
      }
    }

    /** The loop over the lines of a section whose header is at secS..secE. It stops in front of the next
        header, or at a NUL. */
    method ScanLines(section: string, key: string, secS: nat, secE: nat, from: nat, ghost n: nat)
      returns (found: Option<Found>, i: nat)
      requires Terminated(n) && NUL !in key && secS < secE < from <= n + 1
      ensures from <= i <= n + 1
      ensures var t := Text(n);
        var expected := if from <= n then Lines(t[from..], IsNewline(buffer[from - 1]), section, key) else None;
        if found.Some? then
          && found.value.secS == secS && found.value.secE == secE
          && KeyAt(found.value, key, n)
          && expected == Some(t[found.value.valueS..found.value.valueE])
        else if i < n then expected == Find(t[i..], true, section, key) && IsNewline(buffer[i - 1])
        else expected == None
    {
      hide ValueIn, Find, Lines;
      ghost var t := Text(n);
      ghost var expected := if from <= n then Lines(t[from..], IsNewline(buffer[from - 1]), section, key) else None;
      i := from;
      found := None;
      while !(IsNewline(buffer[i - 1]) && buffer[i] == '[') && buffer[i] != NUL
        invariant from <= i <= n + 1
        invariant expected == if i <= n then Lines(t[i..], IsNewline(buffer[i - 1]), section, key) else None
        decreases n + 1 - i
      {
        assert t[i..] != [];
        var newlineStart := i;
        while !IsNewline(buffer[i]) && buffer[i] != NUL
          invariant newlineStart <= i <= n
          invariant forall k | newlineStart <= k < i :: !IsNewline(buffer[k])
          decreases n - i
        {
          i := i + 1;
        }
        LineRead(t, newlineStart, i, IsNewline(buffer[newlineStart - 1]), section, key);
        var equals := MatchLine(key, newlineStart, i, n);
        if equals.Some? {
          found := Some(Found(secS, secE, newlineStart, equals.value - 1, equals.value + 1, i));
          return;
        }
        i := i + 1;
      }
      if i <= n {
        LinesEnd(t, i, section, key);
      }
    }

    /** A header, and the white space behind it if it is of interest. */
    method ScanHeader(section: string, ghost key: string, header: nat, ghost n: nat)
      returns (matched: bool, i: nat)
      requires Terminated(n) && NUL !in section && header < n && buffer[header] == '['
      ensures header < i <= n + 1
      ensures if matched then header + 1 < i else i <= n && buffer[i] != '['
      ensures Find(Text(n)[header..], true, section, key)
        == if !matched then Find(Text(n)[i..], false, section, key)
           else if i <= n then Lines(Text(n)[i..], IsNewline(buffer[i - 1]), section, key)
           else None
    {
      hide Lines, Until, Enter;
      ghost var t := Text(n);
      i := header + 1;
      while buffer[i] != ']' && buffer[i] != NUL
        invariant header < i <= n
        invariant forall k | header < k < i :: buffer[k] != ']'
        decreases n - i
      {
        i := i + 1;
      }
      BraceAt(t, header, i);
      var name := buffer[header + 1..i];
      assert forall k | 0 <= k < |name| :: name[k] == t[header + 1 + k];
      assert name == t[header + 1..i];
      SameIsPrefix(name, section, 0);
      matched := SameUpTo(name, section, 0, |name|);
      if !matched {
        return;
      }
      i := i + 1;
      i := SkipSpaces(section, key, i, n);
    }

    method SkipSpaces(ghost section: string, ghost key: string, brace: nat, ghost n: nat) returns (i: nat)
      requires Terminated(n) && 0 < brace <= n + 1 && (brace <= n ==> buffer[brace - 1] == ']')
      ensures brace <= i <= n + 1 && (brace <= n ==> i <= n)
      ensures brace <= n ==> Enter(Text(n)[brace..], section, key) == Lines(Text(n)[i..], IsNewline(buffer[i - 1]), section, key)
    {
      hide Lines;
      ghost var t := Text(n);
      i := brace;
      while IsSpace(buffer[i])
        invariant brace <= i <= n + 1 && (brace <= n ==> i <= n)
        invariant forall k | brace <= k < i :: IsSpace(buffer[k])
        decreases n + 1 - i
      {
        i := i + 1;
      }
      if brace <= n {
        BlanksAt(t, brace, i);
      }
    }

    method ParseFile(section: string, key: string, ghost n: nat) returns (found: Option<Found>)
      requires Terminated(n) && NUL !in section && NUL !in key
      ensures found.Some? ==> KeyAt(found.value, key, n) && buffer[found.value.secS] == '['
      ensures Find(Text(n), true, section, key)
        == if found.None? then None else Some(Text(n)[found.value.valueS..found.value.valueE])
    {
      hide Lines, Enter, Until;
      ghost var t := Text(n);
      ghost var expected := Find(t, true, section, key);
      found := None;
      var i := 0;
      assert t[0..] == t;
      while buffer[i] != NUL
        invariant 0 <= i <= n + 1
        invariant expected
          == if i <= n then Find(t[i..], i == 0 || IsNewline(buffer[i - 1]), section, key) else None
        invariant found == None
        decreases n + 1 - i
      {
        assert t[i..] != [];
        if (i == 0 || IsNewline(buffer[i - 1])) && buffer[i] == '[' {
          var header := i;
          var matched;
          matched, i := ScanHeader(section, key, header, n);
          if matched {
            found, i := ScanLines(section, key, header, i - 1, i, n);
            if found.Some? {
              return;
            }
          }
        } else {
          assert t[i..][1..] == t[i + 1..];
          i := i + 1;
        }
      }
    }

    /** 0: the value, cut to what fits before the closing NUL. */
    method ReadString(section: string, key: string, value: array<char>, size: nat, ghost n: nat) returns (code: int)
      requires Terminated(n) && NUL !in section && NUL !in key
      requires size <= value.Length && value != buffer
      modifies value
      ensures var expected := Find(old(Text(n)), true, section, key);
        && (code == 1 <==> section == "" || key == "" || size == 0)
        && (code == 2 <==> code != 1 && bufferSize == 0)
        && (code == 3 <==> code != 1 && code != 2 && expected == None)
        && (code == 0 <==> code != 1 && code != 2 && expected.Some?)
        && (code != 0 ==> value[..] == old(value[..]))
        && (code == 0 ==>
              var length := if size - 1 < |expected.value| then size - 1 else |expected.value|;
              value[..] == expected.value[..length] + [NUL] + old(value[length + 1..]))
    {
      hide Find;
      if section == "" || key == "" || size == 0 {
        return 1;
      }
      if bufferSize == 0 {
        return 2;
      }
      var found := ParseFile(section, key, n);
      if found.None? {
        return 3;
      }
      var start := found.value.valueS;
      var length := found.value.valueE - start;
      ghost var whole := Text(n)[start..found.value.valueE];
      assert forall k | 0 <= k < |whole| :: whole[k] == buffer[start + k];
      if size - 1 < length {
        length := size - 1;
      }
      forall k | 0 <= k < length {
        value[k] := buffer[start + k];
      }
      value[length] := NUL;
      assert value[..length] == whole[..length];
      code := 0;
    }
  }

  // ----- what is written is read -----

  datatype Line = Blank | Comment(text: string) | Setting(key: string, value: string)
  datatype Section = Section(name: string, lines: seq<Line>)

  predicate OneLine(s: string) {
    forall c | c in s :: !IsNewline(c)
  }

  predicate CleanLine(line: Line) {
    match line
    case Blank => true
    case Comment(text) => OneLine(text)
    case Setting(key, value) =>
      && key != "" && key[0] != ';' && key[0] != '[' && !IsSpace(key[0]) && '=' !in key
      && OneLine(key) && OneLine(value)
  }

  predicate Clean(conf: seq<Section>) {
    forall s | s in conf :: ']' !in s.name && forall line | line in s.lines :: CleanLine(line)
  }

  function RenderLine(line: Line): string {
    match line
    case Blank => ""
    case Comment(text) => ";" + text
    case Setting(key, value) => key + "=" + value
  }

  function RenderLines(lines: seq<Line>): string {
    if lines == [] then "" else RenderLine(lines[0]) + "\n" + RenderLines(lines[1..])
  }

  function Render(conf: seq<Section>): string {
    if conf == [] then "" else "[" + conf[0].name + "]\n" + RenderLines(conf[0].lines) + Render(conf[1..])
  }

  function LookupIn(lines: seq<Line>, key: string): Option<string> {
    if lines == [] then None
    else if lines[0].Setting? && lines[0].key <= key then Some(lines[0].value)
    else LookupIn(lines[1..], key)
  }

  function Lookup(conf: seq<Section>, section: string, key: string): Option<string> {
    if conf == [] then None
    else if conf[0].name <= section && LookupIn(conf[0].lines, key).Some? then LookupIn(conf[0].lines, key)
    else Lookup(conf[1..], section, key)
  }

  /** A line is not a header. */
  lemma LineShape(line: Line)
    requires CleanLine(line)
    ensures var s := RenderLine(line);
      OneLine(s) && (s != "" ==> s[0] != '[' && !IsSpace(s[0]))
  {
  }

  lemma LineValue(line: Line, key: string)
    requires CleanLine(line)
    ensures ValueIn(RenderLine(line), key)
      == if line.Setting? && line.key <= key then Some(line.value) else None
  {
    if line.Setting? {
      var s := RenderLine(line);
      assert forall k | 0 <= k < |line.key| :: s[k] == line.key[k];
      UntilIs(s, '=', |line.key|);
      assert s[..|line.key|] == line.key && s[|line.key| + 1..] == line.value;
    }
  }

  /** A reader outside passes over a line. */
  lemma {:induction false} PassLine(line: string, rest: string, atStart: bool, section: string, key: string)
    requires OneLine(line) && (atStart && line != "" ==> line[0] != '[')
    ensures Find(line + "\n" + rest, atStart, section, key) == Find(rest, true, section, key)
  {
    var t := line + "\n" + rest;
    if line == "" {
      assert t[1..] == rest;
    } else {
      assert t[1..] == line[1..] + "\n" + rest;
      PassLine(line[1..], rest, false, section, key);
    }
  }

  lemma Regroup(a: string, b: string, c: string)
    ensures (a + b) + c == a + (b + c)
  {
  }

  lemma {:induction false} PassLines(lines: seq<Line>, rest: string, section: string, key: string)
    requires forall line | line in lines :: CleanLine(line)
    ensures Find(RenderLines(lines) + rest, true, section, key) == Find(rest, true, section, key)
  {
    hide Find, CleanLine, RenderLine, OneLine;
    if lines == [] {
      assert RenderLines(lines) + rest == rest;
    } else {
      LineShape(lines[0]);
      PassLine(RenderLine(lines[0]), RenderLines(lines[1..]) + rest, true, section, key);
      Regroup(RenderLine(lines[0]) + "\n", RenderLines(lines[1..]), rest);
      PassLines(lines[1..], rest, section, key);
    }
  }

  /** A reader inside looks at one line. */
  lemma OneMore(line: Line, rest: string, section: string, key: string)
    requires CleanLine(line)
    ensures Lines(RenderLine(line) + "\n" + rest, true, section, key)
      == if line.Setting? && line.key <= key then Some(line.value) else Lines(rest, true, section, key)
  {
    LineShape(line);
    LineValue(line, key);
    var s := RenderLine(line);
    var t := s + "\n" + rest;
    assert forall k | 0 <= k < |s| :: t[k] == s[k];
    LineLengthIs(t, |s|);
    assert t[..|s|] == s && t[|s| + 1..] == rest;
  }

  lemma {:induction false} ReadLines(lines: seq<Line>, rest: string, section: string, key: string)
    requires forall line | line in lines :: CleanLine(line)
    requires rest == "" || rest[0] == '['
    ensures Lines(RenderLines(lines) + rest, true, section, key)
      == if LookupIn(lines, key).Some? then LookupIn(lines, key) else Find(rest, true, section, key)
  {
    hide CleanLine, RenderLine;
    if lines == [] {
      assert RenderLines(lines) + rest == rest;
    } else {
      hide Lines;
      OneMore(lines[0], RenderLines(lines[1..]) + rest, section, key);
      Regroup(RenderLine(lines[0]) + "\n", RenderLines(lines[1..]), rest);
      ReadLines(lines[1..], rest, section, key);
    }
  }

  lemma EnterBlank(body: string, section: string, key: string)
    requires body != "" && IsSpace(body[0])
    ensures Enter("\n" + body, section, key) == Enter(body, section, key)
  {
    hide Lines;
    var t := "\n" + body;
    var n := Blanks(body);
    assert t[1..] == body;
    assert Blanks(t) == n + 1;
    assert t[n + 1..] == body[n..] && t[n] == body[n - 1];
  }

  lemma BodyStart(lines: seq<Line>, rest: string)
    requires forall line | line in lines :: CleanLine(line)
    requires rest == "" || rest[0] == '['
    requires lines != [] ==> RenderLine(lines[0]) != ""
    ensures var body := RenderLines(lines) + rest; body != "" ==> !IsSpace(body[0])
  {
    hide CleanLine, RenderLine;
    var body := RenderLines(lines) + rest;
    if lines == [] {
      assert body == rest;
    } else {
      LineShape(lines[0]);
      assert body[0] == RenderLine(lines[0])[0];
    }
  }

  /** Skipping white space behind a header loses nothing. */
  lemma {:induction false} EnterLines(lines: seq<Line>, rest: string, section: string, key: string)
    requires forall line | line in lines :: CleanLine(line)
    requires rest == "" || rest[0] == '['
    ensures Enter("\n" + (RenderLines(lines) + rest), section, key) == Lines(RenderLines(lines) + rest, true, section, key)
  {
    hide CleanLine, RenderLine, Lines, Find;
    var body := RenderLines(lines) + rest;
    if lines != [] && RenderLine(lines[0]) == "" {
      var body' := RenderLines(lines[1..]) + rest;
      Regroup("\n", RenderLines(lines[1..]), rest);
      assert body == "\n" + body';
      EnterLines(lines[1..], rest, section, key);
      EnterBlank(body, section, key);
      OneMore(lines[0], body', section, key);
      assert RenderLine(lines[0]) + "\n" + body' == body;
      LineValue(lines[0], key);
    } else {
      BodyStart(lines, rest);
      var t := "\n" + body;
      assert t[1..] == body && (body != "" ==> t[1] == body[0]);
      BlanksIs(t, 1);
    }
  }

  lemma ReadHeader(name: string, body: string, section: string, key: string)
    requires ']' !in name
    ensures Find("[" + name + "]\n" + body, true, section, key)
      == if name <= section then Enter("\n" + body, section, key) else Find(body, true, section, key)
  {
    hide Enter;
    var t := "[" + name + "]\n" + body;
    var n := |name|;
    assert t[1..n + 1] == name;
    assert t[1..][n] == ']';
    forall k | 0 <= k < n ensures t[1..][k] != ']' {
      assert t[1..][k] == name[k];
    }
    UntilIs(t[1..], ']', n);
    assert t[n + 2..] == "\n" + body;
    assert t[n + 1..] == "]" + "\n" + body;
    PassLine("]", body, false, section, key);
  }

  lemma ReadSection(s: Section, rest: string, section: string, key: string)
    requires ']' !in s.name && forall line | line in s.lines :: CleanLine(line)
    requires rest == "" || rest[0] == '['
    ensures Find("[" + s.name + "]\n" + (RenderLines(s.lines) + rest), true, section, key)
      == if s.name <= section && LookupIn(s.lines, key).Some? then LookupIn(s.lines, key)
         else Find(rest, true, section, key)
  {
    hide Find, Enter, CleanLine, RenderLines, LookupIn, Lines;
    ReadHeader(s.name, RenderLines(s.lines) + rest, section, key);
    if s.name <= section {
      EnterLines(s.lines, rest, section, key);
      ReadLines(s.lines, rest, section, key);
    } else {
      PassLines(s.lines, rest, section, key);
    }
  }

  lemma RenderStarts(conf: seq<Section>)
    ensures Render(conf) == "" || Render(conf)[0] == '['
  {
  }

  /** A clean file is read as its sections and settings say: the first setting whose key is a beginning of
      the key asked for, in a section whose name is a beginning of the one asked for. */
  lemma {:induction false} ReadsBack(conf: seq<Section>, section: string, key: string)
    requires Clean(conf)
    ensures Find(Render(conf), true, section, key) == Lookup(conf, section, key)
  {
    if conf != [] {
      assert Clean(conf[1..]);
      ReadsBack(conf[1..], section, key);
      assert conf[0] in conf;
      RenderStarts(conf[1..]);
      ReadSection(conf[0], Render(conf[1..]), section, key);
      Regroup("[" + conf[0].name + "]\n", RenderLines(conf[0].lines), Render(conf[1..]));
    }
  }

  // ----- exact names -----

  /** Where a name is found exactly: the setting asked for is at line j of section i. */
  ghost predicate Asked(conf: seq<Section>, i: nat, j: nat, section: string, key: string) {
    && i < |conf| && j < |conf[i].lines| && conf[i].name == section
    && conf[i].lines[j].Setting? && conf[i].lines[j].key == key
  }

  /** A setting that a request for `key` in `section` is answered with when it comes first. */
  ghost predicate Answers(conf: seq<Section>, i: nat, j: nat, section: string, key: string) {
    && i < |conf| && j < |conf[i].lines| && conf[i].name <= section
    && conf[i].lines[j].Setting? && conf[i].lines[j].key <= key
  }

  ghost predicate Before(i: nat, j: nat, i': nat, j': nat) {
    i < i' || (i == i' && j < j')
  }

  /** A setting is what a request reads as soon as no earlier one has beginnings of the names asked for. */
  lemma {:induction false} FirstAnswers(conf: seq<Section>, i: nat, j: nat, section: string, key: string)
    requires Answers(conf, i, j, section, key)
    requires forall i': nat, j': nat | Answers(conf, i', j', section, key) :: !Before(i', j', i, j)
    ensures Lookup(conf, section, key) == Some(conf[i].lines[j].value)
  {
    if i == 0 {
      forall k | 0 <= k < j
        ensures !(conf[0].lines[k].Setting? && conf[0].lines[k].key <= key)
      {
        assert !Answers(conf, 0, k, section, key) || Before(0, k, 0, j);
      }
      FirstIn(conf[0].lines, j, key);
    } else {
      if conf[0].name <= section {
        forall k | 0 <= k < |conf[0].lines|
          ensures !(conf[0].lines[k].Setting? && conf[0].lines[k].key <= key)
        {
          assert !Answers(conf, 0, k, section, key) || Before(0, k, i, j);
        }
        NoneIn(conf[0].lines, key);
      }
      assert Answers(conf[1..], i - 1, j, section, key);
      forall i': nat, j': nat | Answers(conf[1..], i', j', section, key)
        ensures !Before(i', j', i - 1, j)
      {
        assert Answers(conf, i' + 1, j', section, key);
      }
      FirstAnswers(conf[1..], i - 1, j, section, key);
    }
  }

  lemma {:induction false} FirstIn(lines: seq<Line>, j: nat, key: string)
    requires j < |lines| && lines[j].Setting? && lines[j].key <= key
    requires forall k | 0 <= k < j :: !(lines[k].Setting? && lines[k].key <= key)
    ensures LookupIn(lines, key) == Some(lines[j].value)
  {
    if j > 0 {
      FirstIn(lines[1..], j - 1, key);
    }
  }

  lemma {:induction false} NoneIn(lines: seq<Line>, key: string)
    requires forall k | 0 <= k < |lines| :: !(lines[k].Setting? && lines[k].key <= key)
    ensures LookupIn(lines, key) == None
  {
    if lines != [] {
      NoneIn(lines[1..], key);
    }
  }

  lemma {:induction false} FirstOne(conf: seq<Section>, i: nat, j: nat, section: string, key: string)
    returns (i0: nat, j0: nat)
    requires Answers(conf, i, j, section, key)
    ensures Answers(conf, i0, j0, section, key) && ((i0, j0) == (i, j) || Before(i0, j0, i, j))
    ensures forall i': nat, j': nat | Answers(conf, i', j', section, key) :: !Before(i', j', i0, j0)
    decreases i, j
  {
    if i': nat, j': nat :| Answers(conf, i', j', section, key) && Before(i', j', i, j) {
      i0, j0 := FirstOne(conf, i', j', section, key);
    } else {
      i0, j0 := i, j;
    }
  }

  /** The setting asked for is read if and only if no setting before it has beginnings of the two names,
      one with the same value apart. */
  lemma AskedIsRead(conf: seq<Section>, i: nat, j: nat, section: string, key: string)
    requires Clean(conf) && Asked(conf, i, j, section, key)
    requires forall i': nat, j': nat | Answers(conf, i', j', section, key) && Before(i', j', i, j) ::
               conf[i'].lines[j'].value != conf[i].lines[j].value
    ensures Find(Render(conf), true, section, key) == Some(conf[i].lines[j].value)
       <==> forall i': nat, j': nat | Answers(conf, i', j', section, key) :: !Before(i', j', i, j)
  {
    var i0, j0 := FirstOne(conf, i, j, section, key);
    FirstAnswers(conf, i0, j0, section, key);
    ReadsBack(conf, section, key);
  }

  /** A longer key is shadowed by an earlier shorter one. */
  lemma PrefixShadows()
    ensures var conf := [Section("app", [Setting("port", "1"), Setting("port_max", "2")])];
      && Clean(conf) && Asked(conf, 0, 1, "app", "port_max")
      && Find(Render(conf), true, "app", "port_max") == Some("1")
  {
    var conf := [Section("app", [Setting("port", "1"), Setting("port_max", "2")])];
    assert Answers(conf, 0, 0, "app", "port_max");
    ReadsBack(conf, "app", "port_max");
    FirstAnswers(conf, 0, 0, "app", "port_max");
  }

  // ----- line ends -----

  /** The same text but for which of the two line ends stands where there is one. */
  ghost predicate Alike(t: string, u: string) {
    |t| == |u| && forall i | 0 <= i < |t| :: t[i] == u[i] || (t[i] in {'\n', '\r'} && u[i] in {'\n', '\r'})
  }

  lemma AlikePart(t: string, u: string, i: nat, j: nat)
    requires Alike(t, u) && i <= j <= |t|
    ensures Alike(t[i..j], u[i..j]) && Alike(t[i..], u[i..])
  {
  }

  lemma {:induction false} UntilAlike(t: string, u: string, c: char)
    requires Alike(t, u) && c != '\n' && c != '\r'
    ensures Until(t, c) == Until(u, c)
  {
    if t != [] {
      AlikePart(t, u, 1, 1);
      UntilAlike(t[1..], u[1..], c);
    }
  }

  lemma {:induction false} BlanksAlike(t: string, u: string)
    requires Alike(t, u)
    ensures Blanks(t) == Blanks(u)
  {
    if t != [] {
      AlikePart(t, u, 1, 1);
      BlanksAlike(t[1..], u[1..]);
    }
  }

  lemma {:induction false} LineAlike(t: string, u: string)
    requires Alike(t, u)
    ensures LineLength(t) == LineLength(u) && t[..LineLength(t)] == u[..LineLength(t)]
  {
    if t != [] && !IsNewline(t[0]) {
      AlikePart(t, u, 1, 1);
      LineAlike(t[1..], u[1..]);
      assert t[..LineLength(t)] == [t[0]] + t[1..][..LineLength(t[1..])];
      assert u[..LineLength(t)] == [u[0]] + u[1..][..LineLength(t[1..])];
    }
  }

  lemma NameSame(t: string, u: string, name: string)
    requires Alike(t, u) && OneLine(name) && t <= name
    ensures t == u
  {
    assert forall i | 0 <= i < |t| :: t[i] == name[i] && name[i] in name;
  }

  lemma NameAlike(t: string, u: string, name: string)
    requires Alike(t, u) && OneLine(name)
    ensures t <= name <==> u <= name
  {
    if t <= name {
      NameSame(t, u, name);
    }
    if u <= name {
      NameSame(u, t, name);
    }
  }

  lemma SameLength(t: string, u: string)
    requires Alike(t, u)
    ensures |t| == |u| && (t != [] ==> t[0] == u[0] || (IsNewline(t[0]) && IsNewline(u[0])))
  {
  }

  /** A carriage return ends a line as a line feed does: what is read does not depend on which. */
  lemma {:induction false} LineEndsAlike(t: string, u: string, atStart: bool, section: string, key: string)
    requires Alike(t, u) && OneLine(section)
    ensures Find(t, atStart, section, key) == Find(u, atStart, section, key)
    decreases |t|, 0
  {
    hide Lines, Enter, Until, ValueIn, Alike, OneLine;
    SameLength(t, u);
    if t != [] {
      AlikePart(t, u, 1, 1);
      if atStart && t[0] == '[' {
        UntilAlike(t[1..], u[1..], ']');
        var n := Until(t[1..], ']');
        AlikePart(t, u, 1, n + 1);
        NameAlike(t[1..n + 1], u[1..n + 1], section);
        if !(t[1..n + 1] <= section) {
          AlikePart(t, u, n + 1, n + 1);
          LineEndsAlike(t[n + 1..], u[n + 1..], false, section, key);
        } else if n + 1 < |t| {
          AlikePart(t, u, n + 2, n + 2);
          EnterAlike(t[n + 2..], u[n + 2..], section, key);
        }
      } else {
        LineEndsAlike(t[1..], u[1..], IsNewline(t[0]), section, key);
      }
    }
  }

  lemma {:induction false} EnterAlike(t: string, u: string, section: string, key: string)
    requires Alike(t, u) && OneLine(section)
    ensures Enter(t, section, key) == Enter(u, section, key)
    decreases |t|, 2
  {
    BlanksAlike(t, u);
    var n := Blanks(t);
    AlikePart(t, u, n, n);
    LinesAlike(t[n..], u[n..], n > 0 && IsNewline(t[n - 1]), section, key);
  }

  lemma {:induction false} LinesAlike(t: string, u: string, atStart: bool, section: string, key: string)
    requires Alike(t, u) && OneLine(section)
    ensures Lines(t, atStart, section, key) == Lines(u, atStart, section, key)
    decreases |t|, 1
  {
    if t != [] {
      if atStart && t[0] == '[' {
        LineEndsAlike(t, u, true, section, key);
      } else {
        LineAlike(t, u);
        var n := LineLength(t);
        if n < |t| {
          AlikePart(t, u, n + 1, n + 1);
          LinesAlike(t[n + 1..], u[n + 1..], true, section, key);
        }
      }
    }
  }
}
