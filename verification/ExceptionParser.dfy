// The line-oriented parser of the audit exceptions file
// (tools/check_pnpm_audit_exceptions.py:12-48).
module ExceptionParser {
  import opened Lists

  type Entry = map<string, string>

  // ---- strings ---------------------------------------------------------------------------

  // str.isspace for one character.
  predicate IsSpace(c: char) {
    || '\t' <= c <= '\r' || '\U{1c}' <= c <= ' ' || c == '\U{85}' || c == '\U{a0}' || c == '\U{1680}'
    || '\U{2000}' <= c <= '\U{200a}' || c == '\U{2028}' || c == '\U{2029}' || c == '\U{202f}' || c == '\U{205f}'
    || c == '\U{3000}'
  }

  function TrimLeft(s: string): string {
    if s != "" && IsSpace(s[0]) then TrimLeft(s[1..]) else s
  }

  function TrimRight(s: string): string {
    if s != "" && IsSpace(s[|s| - 1]) then TrimRight(s[..|s| - 1]) else s
  }

  function Strip(s: string): string {
    TrimRight(TrimLeft(s))
  }

  predicate StartsWith(s: string, prefix: string) {
    prefix <= s
  }

  // The position of the first c, or the length.
  function Find(s: string, c: char): (i: nat)
    ensures i <= |s| && c !in s[..i] && (i < |s| ==> s[i] == c)
    ensures i == |s| <==> c !in s
  {
    if s == "" then 0
    else if s[0] == c then 0
    else
      var i := Find(s[1..], c);
      assert s[..i + 1] == [s[0]] + s[1..][..i];
      assert s == [s[0]] + s[1..];
      i + 1
  }

  predicate Quoted(v: string, q: char) {
    v != "" && v[0] == q && v[|v| - 1] == q
  }

  // value[1:-1].
  function Unquote(v: string): string {
    if Quoted(v, '\"') || Quoted(v, '\'') then (if |v| < 2 then "" else v[1..|v| - 1]) else v
  }

  // ValueError when there is no colon to split at.
  function SplitKv(line: string): Option<(string, string)> {
    var i := Find(line, ':');
    if i == |line| then None else Some((Strip(line[..i]), Unquote(Strip(line[i + 1..]))))
  }

  // ---- the parser as a fold over lines -----------------------------------------------------

  datatype ParseError = ValueError(line: string)

  // `current` is None before the first item.
  datatype State = State(exceptions: seq<Entry>, current: Option<Entry>)

  // Blank lines, comments, and the two top-level keys.
  predicate Skipped(line: string) {
    line == "" || StartsWith(line, "#") || StartsWith(line, "version:") || StartsWith(line, "exceptions:")
  }

  function Flush(s: State): seq<Entry> {
    if s.current.Some? && s.current.value != map[] then s.exceptions + [s.current.value] else s.exceptions
  }

  function Assign(s: State, line: string): Result<State, ParseError>
    requires s.current.Some?
  {
    match SplitKv(line)
    case None => Err(ValueError(line))
    case Some(kv) => Ok(s.(current := Some(s.current.value[kv.0 := kv.1])))
  }

  // One stripped line.
  function Line(s: State, line: string): Result<State, ParseError> {
    if Skipped(line) then Ok(s)
    else if StartsWith(line, "- ") then
      var started := State(Flush(s), Some(map[]));
      if Strip(line[2..]) == "" then Ok(started) else Assign(started, Strip(line[2..]))
    else if s.current.Some? && ':' in line then Assign(s, line)
    else Ok(s)
  }

  function Fold(lines: seq<string>, s: State): Result<State, ParseError> {
    if lines == [] then Ok(s)
    else
      match Line(s, Strip(lines[0]))
      case Err(e) => Err(e)
      case Ok(s') => Fold(lines[1..], s')
  }

  function Parse(lines: seq<string>): Result<seq<Entry>, ParseError> {
    match Fold(lines, State([], None))
    case Err(e) => Err(e)
    case Ok(s) => Ok(Flush(s))
  }

  method ParseExceptions(lines: seq<string>) returns (r: Result<seq<Entry>, ParseError>)
    ensures r == Parse(lines)
  {
    var exceptions: seq<Entry>, current: Option<Entry> := [], None;
    for i := 0 to |lines|
      invariant Fold(lines, State([], None)) == Fold(lines[i..], State(exceptions, current))
    {
      ghost var before := State(exceptions, current);
      assert lines[i..][0] == lines[i] && lines[i..][1..] == lines[i + 1..];
      var line := Strip(lines[i]);
      if line == "" || StartsWith(line, "#") {
        continue;
      }
      if StartsWith(line, "version:") || StartsWith(line, "exceptions:") {
        continue;
      }
      if StartsWith(line, "- ") {
        if current.Some? && current.value != map[] {
          exceptions := exceptions + [current.value];
        }
        current := Some(map[]);
        line := Strip(line[2..]);
        if line != "" {
          var kv := SplitKv(line);
          if kv.None? {
            return Err(ValueError(line));
          }
          current := Some(current.value[kv.value.0 := kv.value.1]);
        }
        continue;
      }
      if current.Some? && ':' in line {
        var kv := SplitKv(line);
        current := Some(current.value[kv.value.0 := kv.value.1]);
      }
    }
    if current.Some? && current.value != map[] {
      exceptions := exceptions + [current.value];
    }
    r := Ok(exceptions);
  }

  // ---- only the relevant lines count -------------------------------------------------------

  // The stripped lines that are not skipped.
  function Relevant(lines: seq<string>): seq<string> {
    if lines == [] then []
    else (if Skipped(Strip(lines[0])) then [] else [Strip(lines[0])]) + Relevant(lines[1..])
  }

  function FoldStripped(lines: seq<string>, s: State): Result<State, ParseError> {
    if lines == [] then Ok(s)
    else
      match Line(s, lines[0])
      case Err(e) => Err(e)
      case Ok(s') => FoldStripped(lines[1..], s')
  }

  lemma {:induction false} FoldRelevant(lines: seq<string>, s: State)
    ensures Fold(lines, s) == FoldStripped(Relevant(lines), s)
    decreases lines
  {
    if lines != [] {
      var line, rest := Strip(lines[0]), lines[1..];
      if Skipped(line) {
        FoldRelevant(rest, s);
        assert Relevant(lines) == Relevant(rest);
      } else {
        assert Relevant(lines)[0] == line && Relevant(lines)[1..] == Relevant(rest);
        if Line(s, line).Ok? {
          FoldRelevant(rest, Line(s, line).value);
        }
      }
    }
  }

  lemma {:induction false} RelevantConcat(a: seq<string>, b: seq<string>)
    ensures Relevant(a + b) == Relevant(a) + Relevant(b)
  {
    if a == [] {
      assert a + b == b;
    } else {
      assert (a + b)[1..] == a[1..] + b;
      RelevantConcat(a[1..], b);
    }
  }

  // Files with the same relevant lines have the same exceptions.
  lemma ParseRelevant(a: seq<string>, b: seq<string>)
    requires Relevant(a) == Relevant(b)
    ensures Parse(a) == Parse(b)
  {
    FoldRelevant(a, State([], None));
    FoldRelevant(b, State([], None));
  }

  // A blank line or a comment may be put anywhere.
  lemma InsertSkipped(a: seq<string>, line: string, b: seq<string>)
    requires Skipped(Strip(line))
    ensures Parse(a + [line] + b) == Parse(a + b)
  {
    hide Strip, Skipped;
    RelevantConcat(a + [line], b);
    RelevantConcat(a, [line]);
    RelevantConcat(a, b);
    assert Relevant([line]) == [];
    ParseRelevant(a + [line] + b, a + b);
  }

  // Any line may be indented differently.
  lemma Reindent(a: seq<string>, line: string, line': string, b: seq<string>)
    requires Strip(line) == Strip(line')
    ensures Parse(a + [line] + b) == Parse(a + [line'] + b)
  {
    RelevantConcat(a + [line], b);
    RelevantConcat(a, [line]);
    RelevantConcat(a + [line'], b);
    RelevantConcat(a, [line']);
    assert [line][1..] == [] && [line'][1..] == [];
    ParseRelevant(a + [line] + b, a + [line'] + b);
  }

  // ---- when the parser raises -----------------------------------------------------------------

  predicate BadItem(line: string) {
    StartsWith(line, "- ") && Strip(line[2..]) != "" && ':' !in Strip(line[2..])
  }

  lemma LineFails(s: State, line: string)
    ensures Line(s, line).Err? <==> BadItem(line)
  {
    if StartsWith(line, "- ") {
      assert line[0] == '-';
    }
  }

  // The parser raises exactly if some item starts with a line that has no colon.
  lemma {:induction false} FoldFails(lines: seq<string>, s: State)
    ensures Fold(lines, s).Err? <==> exists i :: 0 <= i < |lines| && BadItem(Strip(lines[i]))
    decreases lines
  {
    if lines != [] {
      LineFails(s, Strip(lines[0]));
      if Line(s, Strip(lines[0])).Ok? {
        FoldFails(lines[1..], Line(s, Strip(lines[0])).value);
        assert forall i :: 0 <= i < |lines| - 1 ==> lines[1..][i] == lines[i + 1];
        assert forall i :: 1 <= i < |lines| ==> lines[i] == lines[1..][i - 1];
      }
    }
  }

  lemma ParseFailsIff(lines: seq<string>)
    ensures Parse(lines).Err? <==> exists i :: 0 <= i < |lines| && BadItem(Strip(lines[i]))
  {
    FoldFails(lines, State([], None));
  }

  // ---- what counts as a space, and what a line does ---------------------------------------------

  predicate Padding(s: string) {
    forall i :: 0 <= i < |s| ==> s[i] == ' ' || s[i] == '\t' || s[i] == '\r' || s[i] == '\n'
  }

  lemma {:induction false} PaddingGoes(pad: string, s: string)
    requires Padding(pad)
    ensures TrimLeft(pad + s) == TrimLeft(s)
    decreases |pad|
  {
    if pad == "" {
      assert pad + s == s;
    } else {
      PaddingGoes(pad[1..], s);
      assert (pad + s)[1..] == pad[1..] + s;
    }
  }

  lemma {:induction false} PaddingGoesRight(s: string, pad: string)
    requires Padding(pad)
    ensures TrimRight(s + pad) == TrimRight(s)
    decreases |pad|
  {
    if pad == "" {
      assert s + pad == s;
    } else {
      PaddingGoesRight(s, pad[..|pad| - 1]);
      assert (s + pad)[..|s| + |pad| - 1] == s + pad[..|pad| - 1];
    }
  }

  lemma {:induction false} PaddedRight(s: string, pad: string)
    requires Padding(pad)
    ensures Strip(s + pad) == Strip(s)
    decreases |s|
  {
    if s == "" {
      PaddingGoes(pad, "");
      assert pad + "" == pad && "" + pad == pad;
    } else if IsSpace(s[0]) {
      PaddedRight(s[1..], pad);
      assert (s + pad)[1..] == s[1..] + pad;
    } else {
      PaddingGoesRight(s, pad);
    }
  }

  // Spaces, tabs and line ends around a line are stripped; a visible ASCII character at
  // either end stays.
  lemma StripsPadding(pad: string, line: string, pad': string)
    requires Padding(pad) && Padding(pad')
    ensures Strip(pad + line + pad') == Strip(line)
    ensures line != "" && '!' <= line[0] <= '~' && '!' <= line[|line| - 1] <= '~' ==> Strip(line) == line
  {
    PaddedRight(pad + line, pad');
    PaddingGoes(pad, line);
    if line != "" && '!' <= line[0] <= '~' && '!' <= line[|line| - 1] <= '~' {
      TrimSolid(line);
    }
  }

  // Exactly blank lines, comments and the two top-level keys are skipped.
  lemma SkippedExactly(line: string)
    ensures Skipped(line)
       <==> line == "" || line[0] == '#' || (|line| >= 8 && line[..8] == "version:")
            || (|line| >= 11 && line[..11] == "exceptions:")
  {
  }

  lemma {:induction false} FoldIgnores(a: seq<string>, line: string, b: seq<string>, s: State)
    requires forall s' :: Line(s', Strip(line)) == Ok(s')
    ensures Fold(a + [line] + b, s) == Fold(a + b, s)
    decreases a
  {
    hide Line, Strip;
    if a == [] {
      assert [] + [line] + b == [line] + b && ([line] + b)[1..] == b && [] + b == b;
    } else {
      assert (a + [line] + b)[1..] == a[1..] + [line] + b && (a + b)[1..] == a[1..] + b;
      if Line(s, Strip(a[0])).Ok? {
        FoldIgnores(a[1..], line, b, Line(s, Strip(a[0])).value);
      }
    }
  }

  // So are lines without a colon that start no item; among them is a dash alone.
  lemma InsertIgnored(a: seq<string>, line: string, b: seq<string>)
    requires ':' !in Strip(line) && !StartsWith(Strip(line), "- ")
    ensures Parse(a + [line] + b) == Parse(a + b)
  {
    FoldIgnores(a, line, b, State([], None));
  }

  // A list marker, alone or with text behind it.
  predicate Marker(line: string) {
    line == "-" || (|line| > 2 && line[..2] == "- ")
  }

  // It ends the exception before it exactly if it does not stand alone on its line.
  lemma MarkerEndsIff(s: State, e: Entry, line: string)
    requires s.current == Some(e) && e != map[] && Strip(line) == line && Marker(line) && Line(s, line).Ok?
    ensures Line(s, line).value.exceptions == s.exceptions + [e] <==> line != "-"
  {
    hide Strip, SplitKv;
    assert line[0] == '-';
    if line != "-" {
      assert StartsWith(line, "- ");
    }
  }

  // ---- printing ---------------------------------------------------------------------------------

  datatype Quotes = Double | Single | Bare

  // One field of a record, and how its value is written.
  datatype Pair = Pair(key: string, value: string, quotes: Quotes)

  type Record = seq<Pair>

  function ToEntry(rec: Record): Entry {
    if rec == [] then map[] else ToEntry(rec[..|rec| - 1])[rec[|rec| - 1].key := rec[|rec| - 1].value]
  }

  // What stands behind the colon.
  function PrintValue(kv: Pair): string {
    match kv.quotes
    case Double => " \"" + kv.value + "\""
    case Single => " '" + kv.value + "'"
    case Bare => if kv.value == "" then "" else " " + kv.value
  }

  function PrintKv(kv: Pair): string {
    kv.key + ":" + PrintValue(kv)
  }

  // The last field with a key decides.
  lemma {:induction false} EntryExactly(rec: Record, k: string)
    ensures k in ToEntry(rec) <==> exists i :: 0 <= i < |rec| && rec[i].key == k
    ensures forall i :: 0 <= i < |rec| && rec[i].key == k && (forall j :: i < j < |rec| ==> rec[j].key != k) ==>
              k in ToEntry(rec) && ToEntry(rec)[k] == rec[i].value
  {
    if rec != [] {
      var t := rec[..|rec| - 1];
      EntryExactly(t, k);
      assert forall i :: 0 <= i < |t| ==> t[i] == rec[i];
    }
  }

  function PrintTail(rec: Record): (lines: seq<string>)
    ensures |lines| == |rec|
  {
    seq(|rec|, i requires 0 <= i < |rec| => "  " + PrintKv(rec[i]))
  }

  // `- k: v` for the first pair of a record, an indented line for every other.
  function PrintRecord(rec: Record): seq<string> {
    if rec == [] then [] else ["- " + PrintKv(rec[0])] + PrintTail(rec[1..])
  }

  function Print(recs: seq<Record>): seq<string> {
    if recs == [] then [] else Print(recs[..|recs| - 1]) + PrintRecord(recs[|recs| - 1])
  }

  predicate LegalKey(k: string) {
    && Strip(k) == k && ':' !in k && !StartsWith(k, "#") && !StartsWith(k, "- ")
    && k != "version" && k != "exceptions"
  }

  // A bare value has no space at its ends, and is not enclosed in quotes.
  predicate LegalPair(kv: Pair) {
    && LegalKey(kv.key)
    && (kv.quotes == Bare ==> Strip(kv.value) == kv.value && !Enclosed(kv.value))
  }

  predicate Enclosed(v: string) {
    v != "" && v[0] == v[|v| - 1] && (v[0] == '\"' || v[0] == '\'')
  }

  ghost predicate Legal(rec: Record) {
    rec != [] && forall i :: 0 <= i < |rec| ==> LegalPair(rec[i])
  }

  lemma {:induction false} TrimSolid(s: string)
    requires s == "" || (!IsSpace(s[0]) && !IsSpace(s[|s| - 1]))
    ensures Strip(s) == s
  {
  }

  lemma {:induction false} StripEnds(s: string)
    requires Strip(s) == s && s != ""
    ensures !IsSpace(s[0]) && !IsSpace(s[|s| - 1])
  {
    TrimLeftEnds(s);
    TrimRightPrefix(TrimLeft(s));
    TrimRightEnds(TrimLeft(s));
  }

  lemma {:induction false} TrimRightEnds(s: string)
    ensures TrimRight(s) != "" ==> !IsSpace(TrimRight(s)[|TrimRight(s)| - 1])
  {
    if s != "" && IsSpace(s[|s| - 1]) {
      TrimRightEnds(s[..|s| - 1]);
    }
  }

  lemma {:induction false} TrimLeftEnds(s: string)
    ensures |TrimLeft(s)| <= |s| && (TrimLeft(s) != "" ==> !IsSpace(TrimLeft(s)[0]))
    ensures |TrimLeft(s)| == |s| ==> TrimLeft(s) == s
  {
    if s != "" && IsSpace(s[0]) {
      TrimLeftEnds(s[1..]);
    }
  }

  lemma {:induction false} TrimRightPrefix(s: string)
    ensures TrimRight(s) <= s
  {
    if s != "" && IsSpace(s[|s| - 1]) {
      TrimRightPrefix(s[..|s| - 1]);
    }
  }

  lemma {:induction false} FindFirst(a: string, c: char, b: string)
    requires c !in a
    ensures Find(a + [c] + b, c) == |a|
  {
    if a != "" {
      assert (a + [c] + b)[1..] == a[1..] + [c] + b;
      FindFirst(a[1..], c, b);
    } else {
      assert (a + [c] + b)[0] == c;
    }
  }

  lemma {:induction false} UnquoteEnclosed(q: char, v: string)
    requires q == '\"' || q == '\''
    ensures Unquote(Strip(" " + [q] + v + [q])) == v
  {
    var quoted := [q] + v + [q];
    assert " " + [q] + v + [q] == " " + quoted;
    assert (" " + quoted)[1..] == quoted;
    TrimSolid(quoted);
    assert quoted[1..|quoted| - 1] == v;
  }

  lemma UnquoteBare(v: string)
    requires Strip(v) == v && !Enclosed(v)
    ensures Unquote(Strip(v)) == v && Unquote(Strip(" " + v)) == v
  {
    assert (" " + v)[1..] == v;
  }

  lemma UnquotePrinted(kv: Pair)
    requires LegalPair(kv)
    ensures Unquote(Strip(PrintValue(kv))) == kv.value
  {
    hide Strip, Unquote;
    match kv.quotes
    case Double =>
      assert PrintValue(kv) == " " + ['\"'] + kv.value + ['\"'];
      UnquoteEnclosed('\"', kv.value);
    case Single =>
      assert PrintValue(kv) == " " + ['\''] + kv.value + ['\''];
      UnquoteEnclosed('\'', kv.value);
    case Bare => UnquoteBare(kv.value);
  }

  lemma SplitPrinted(kv: Pair)
    requires LegalPair(kv)
    ensures SplitKv(PrintKv(kv)) == Some((kv.key, kv.value))
  {
    hide Strip, Unquote, Find, PrintValue, StartsWith;
    var rest := PrintValue(kv);
    assert PrintKv(kv) == kv.key + [':'] + rest;
    FindFirst(kv.key, ':', rest);
    assert (kv.key + [':'] + rest)[..|kv.key|] == kv.key && (kv.key + [':'] + rest)[|kv.key| + 1..] == rest;
    UnquotePrinted(kv);
  }

  lemma SolidPrinted(kv: Pair)
    requires LegalPair(kv)
    ensures Strip(PrintKv(kv)) == PrintKv(kv) && PrintKv(kv) != ""
  {
    hide Strip;
    if kv.key != "" {
      StripEnds(kv.key);
    }
    if kv.quotes == Bare && kv.value != "" {
      StripEnds(kv.value);
    }
    TrimSolid(PrintKv(kv));
  }

  // The line of a pair that is not the first of its record.
  lemma LinePrinted(s: State, kv: Pair)
    requires s.current.Some? && LegalPair(kv)
    ensures Line(s, Strip("  " + PrintKv(kv))) == Ok(s.(current := Some(s.current.value[kv.key := kv.value])))
  {
    var line := PrintKv(kv);
    SolidPrinted(kv);
    assert ("  " + line)[0] == ' ' && ("  " + line)[1..] == " " + line && (" " + line)[1..] == line;
    assert TrimLeft("  " + line) == TrimLeft(" " + line) == TrimLeft(line);
    SplitPrinted(kv);
    NotSkipped(kv);
    assert line[|kv.key|] == ':';
  }

  lemma NotSkipped(kv: Pair)
    requires LegalKey(kv.key)
    ensures !Skipped(PrintKv(kv)) && !StartsWith(PrintKv(kv), "- ") && PrintKv(kv) != ""
  {
    var k, line := kv.key, PrintKv(kv);
    assert line == k + (":" + PrintValue(kv)) && line[|k|] == ':';
    KeyBeforeColon(line, k, "version");
    KeyBeforeColon(line, k, "exceptions");
    assert |k| > 0 ==> line[0] == k[0];
    assert |k| > 1 ==> line[1] == k[1];
  }

  // The text before the first colon of a line is unique.
  lemma KeyBeforeColon(line: string, k: string, name: string)
    requires k < line && line[|k|] == ':' && ':' !in k && ':' !in name
    ensures StartsWith(line, name + ":") ==> k == name
  {
    assert line == k + [':'] + line[|k| + 1..];
    FindFirst(k, ':', line[|k| + 1..]);
    if StartsWith(line, name + ":") {
      assert line == name + [':'] + line[|name| + 1..];
      FindFirst(name, ':', line[|name| + 1..]);
    }
  }

  lemma {:induction false} FoldConcat(a: seq<string>, b: seq<string>, s: State)
    requires Fold(a, s).Ok?
    ensures Fold(a + b, s) == Fold(b, Fold(a, s).value)
    decreases a
  {
    if a == [] {
      assert a + b == b;
    } else {
      assert (a + b)[1..] == a[1..] + b;
      FoldConcat(a[1..], b, Line(s, Strip(a[0])).value);
    }
  }

  lemma FoldOne(line: string, s: State)
    ensures Fold([line], s) == Line(s, Strip(line))
  {
    assert [line][1..] == [];
  }

  lemma {:induction false} FoldTail(rec: Record, k: nat, s: State)
    requires 1 <= k <= |rec| && Legal(rec) && s.current == Some(ToEntry(rec[..1]))
    ensures Fold(PrintTail(rec[1..k]), s) == Ok(s.(current := Some(ToEntry(rec[..k]))))
  {
    hide Line, PrintKv, Strip;
    if k > 1 {
      FoldTail(rec, k - 1, s);
      assert PrintTail(rec[1..k]) == PrintTail(rec[1..k - 1]) + ["  " + PrintKv(rec[k - 1])];
      FoldConcat(PrintTail(rec[1..k - 1]), ["  " + PrintKv(rec[k - 1])], s);
      FoldOne("  " + PrintKv(rec[k - 1]), s.(current := Some(ToEntry(rec[..k - 1]))));
      LinePrinted(s.(current := Some(ToEntry(rec[..k - 1]))), rec[k - 1]);
      assert rec[..k][..k - 1] == rec[..k - 1];
    } else {
      assert PrintTail(rec[1..1]) == [];
    }
  }

  // The line that starts a record.
  lemma HeadPrinted(s: State, kv: Pair)
    requires LegalPair(kv)
    ensures Line(s, Strip("- " + PrintKv(kv))) == Ok(State(Flush(s), Some(map[kv.key := kv.value])))
  {
    hide Strip, PrintKv, SplitKv, Flush;
    var line := "- " + PrintKv(kv);
    SolidPrinted(kv);
    StripEnds(PrintKv(kv));
    TrimSolid(line);
    assert line[0] == '-' && line[2..] == PrintKv(kv);
    SplitPrinted(kv);
  }

  lemma FoldRecord(rec: Record, s: State)
    requires Legal(rec)
    ensures Fold(PrintRecord(rec), s) == Ok(State(Flush(s), Some(ToEntry(rec)))) && ToEntry(rec) != map[]
  {
    var head := "- " + PrintKv(rec[0]);
    HeadPrinted(s, rec[0]);
    FoldOne(head, s);
    assert rec[..1][..0] == [] && rec[..1][0] == rec[0];
    assert ToEntry(rec[..1]) == map[rec[0].key := rec[0].value];
    var started := State(Flush(s), Some(ToEntry(rec[..1])));
    assert Fold([head], s) == Ok(started);
    FoldConcat([head], PrintTail(rec[1..]), s);
    FoldTail(rec, |rec|, started);
    assert rec[1..|rec|] == rec[1..] && rec[..|rec|] == rec;
    assert rec[|rec| - 1].key in ToEntry(rec);
  }

  function Entries(recs: seq<Record>): (r: seq<Entry>)
    ensures |r| == |recs| && forall i :: 0 <= i < |recs| ==> r[i] == ToEntry(recs[i])
  {
    seq(|recs|, i requires 0 <= i < |recs| => ToEntry(recs[i]))
  }

  lemma {:induction false} FoldPrinted(recs: seq<Record>)
    requires forall i :: 0 <= i < |recs| ==> Legal(recs[i])
    ensures Fold(Print(recs), State([], None)).Ok?
    ensures Flush(Fold(Print(recs), State([], None)).value) == Entries(recs)
  {
    hide Line, PrintRecord, ToEntry, Strip, Legal;
    if recs != [] {
      var before, last := recs[..|recs| - 1], recs[|recs| - 1];
      FoldPrinted(before);
      var s := Fold(Print(before), State([], None)).value;
      FoldConcat(Print(before), PrintRecord(last), State([], None));
      FoldRecord(last, s);
      assert Entries(recs) == Entries(before) + [ToEntry(last)];
    }
  }

  // Printing and parsing gives the records back, whatever their values are.
  lemma PrintThenParse(recs: seq<Record>)
    requires forall i :: 0 <= i < |recs| ==> Legal(recs[i])
    ensures Parse(Print(recs)) == Ok(Entries(recs))
  {
    FoldPrinted(recs);
  }

  // Two items, the second with its dash on a line of its own, become one exception.
  lemma LoneDashMerges(rec: Record, more: Record)
    requires Legal(rec) && Legal(rec + more)
    ensures Parse(PrintRecord(rec) + ["-"] + PrintTail(more)) == Ok([ToEntry(rec + more)])
  {
    hide Strip, Fold, Parse, PrintKv, ToEntry, PrintTail;
    TrimSolid("-");
    InsertIgnored(PrintRecord(rec), "-", PrintTail(more));
    TailsConcat(rec, more);
    PrintOne(rec + more);
    PrintThenParse([rec + more]);
    assert Entries([rec + more]) == [ToEntry(rec + more)];
  }

  lemma TailsConcat(rec: Record, more: Record)
    requires rec != []
    ensures PrintRecord(rec) + PrintTail(more) == PrintRecord(rec + more)
  {
    hide PrintKv;
    assert (rec + more)[0] == rec[0] && (rec + more)[1..] == rec[1..] + more;
    assert PrintTail(rec[1..] + more) == PrintTail(rec[1..]) + PrintTail(more);
  }

  lemma PrintOne(rec: Record)
    ensures Print([rec]) == PrintRecord(rec)
  {
    hide PrintRecord;
    assert [rec][..0] == [] && Print([rec]) == [] + PrintRecord(rec);
  }

  // ---- the file as text ----------------------------------------------------------------------------

  predicate IsBreak(c: char) {
    c == '\n' || c == '\r'
  }

  predicate Unbroken(s: string) {
    forall i :: 0 <= i < |s| ==> !IsBreak(s[i])
  }

  function FirstBreak(text: string): (i: nat)
    ensures i <= |text| && (i < |text| ==> IsBreak(text[i])) && Unbroken(text[..i])
  {
    if text == "" || IsBreak(text[0]) then 0
    else
      var i := FirstBreak(text[1..]);
      assert text[..i + 1] == [text[0]] + text[1..][..i];
      i + 1
  }

  // The lines of a text file. A "\r\n" counts as two breaks here, with an empty line
  // between them, which the parser skips.
  function Lines(text: string): seq<string>
    decreases |text|
  {
    if text == "" then []
    else
      var i := FirstBreak(text);
      if i == |text| then [text] else [text[..i]] + Lines(text[i + 1..])
  }

  function Text(lines: seq<string>): string {
    if lines == [] then "" else lines[0] + "\n" + Text(lines[1..])
  }

  lemma {:induction false} FirstBreakAt(a: string, c: char, b: string)
    requires Unbroken(a) && IsBreak(c)
    ensures FirstBreak(a + [c] + b) == |a|
  {
    if a == "" {
      assert (a + [c] + b)[0] == c;
    } else {
      assert (a + [c] + b)[0] == a[0] && (a + [c] + b)[1..] == a[1..] + [c] + b;
      FirstBreakAt(a[1..], c, b);
    }
  }

  lemma {:induction false} LinesOfText(lines: seq<string>)
    requires forall i :: 0 <= i < |lines| ==> Unbroken(lines[i])
    ensures Lines(Text(lines)) == lines
  {
    if lines != [] {
      var text, rest := Text(lines), Text(lines[1..]);
      LinesOfText(lines[1..]);
      assert text == lines[0] + ['\n'] + rest;
      FirstBreakAt(lines[0], '\n', rest);
      assert text[..|lines[0]|] == lines[0] && text[|lines[0]| + 1..] == rest;
    }
  }

  ghost predicate OneLine(rec: Record) {
    forall i :: 0 <= i < |rec| ==> Unbroken(rec[i].key) && Unbroken(rec[i].value)
  }

  lemma PairUnbroken(start: string, kv: Pair)
    requires Unbroken(start) && Unbroken(kv.key) && Unbroken(kv.value)
    ensures Unbroken(start + PrintKv(kv))
  {
    hide Unbroken, PrintValue;
    StartsUnbroken();
    ValueUnbroken(kv);
    UnbrokenConcat(kv.key, ":");
    UnbrokenConcat(kv.key + ":", PrintValue(kv));
    UnbrokenConcat(start, PrintKv(kv));
  }

  lemma ValueUnbroken(kv: Pair)
    requires Unbroken(kv.value)
    ensures Unbroken(PrintValue(kv))
  {
    hide Unbroken;
    StartsUnbroken();
    UnbrokenConcat(" ", kv.value);
    UnbrokenConcat(" \"", kv.value);
    UnbrokenConcat(" '", kv.value);
    UnbrokenConcat(" \"" + kv.value, "\"");
    UnbrokenConcat(" '" + kv.value, "'");
  }

  lemma UnbrokenConcat(a: string, b: string)
    ensures Unbroken(a + b) <==> Unbroken(a) && Unbroken(b)
  {
    if Unbroken(a + b) {
      assert forall i :: 0 <= i < |a| ==> (a + b)[i] == a[i];
      assert forall i :: 0 <= i < |b| ==> (a + b)[|a| + i] == b[i];
    }
  }

  lemma {:induction false} PrintedUnbroken(recs: seq<Record>)
    requires forall i :: 0 <= i < |recs| ==> OneLine(recs[i])
    ensures forall i :: 0 <= i < |Print(recs)| ==> Unbroken(Print(recs)[i])
  {
    hide Unbroken, PrintKv;
    if recs != [] {
      PrintedUnbroken(recs[..|recs| - 1]);
      var rec := recs[|recs| - 1];
      forall i | 0 <= i < |PrintRecord(rec)|
        ensures Unbroken(PrintRecord(rec)[i])
      {
        assert OneLine(rec);
        StartsUnbroken();
        PairUnbroken(if i == 0 then "- " else "  ", rec[i]);
        assert PrintRecord(rec)[i] == (if i == 0 then "- " else "  ") + PrintKv(rec[i]);
      }
    }
  }

  lemma StartsUnbroken()
    ensures Unbroken("- ") && Unbroken("  ") && Unbroken(" ") && Unbroken(":")
    ensures Unbroken(" \"") && Unbroken("\"") && Unbroken(" '") && Unbroken("'")
  {
  }

  // The same for a whole file of newline-free keys and values.
  lemma PrintThenParseText(recs: seq<Record>)
    requires forall i :: 0 <= i < |recs| ==> Legal(recs[i]) && OneLine(recs[i])
    ensures Parse(Lines(Text(Print(recs)))) == Ok(Entries(recs))
  {
    PrintedUnbroken(recs);
    LinesOfText(Print(recs));
    PrintThenParse(recs);
  }
}
