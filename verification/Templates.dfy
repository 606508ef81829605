/** loadTemplate: a whole template from its lines. */
module Templates {
  import opened Text
  import opened Answers
  import opened RoundTrip

  datatype LoadError = NoEntries | BadLine(lineNo: nat, cause: ParseError)

  /** A line with its comment cut off and its ends trimmed. */
  function Stripped(line: string): string {
    TrimSpace(Split(line, "#")[0])
  }

  datatype LineOutcome = Skipped | Entry(te: TemplateEntry) | Bad(cause: ParseError)

  function OutcomeOf(line: string): LineOutcome {
    if Stripped(line) == "" then Skipped
    else match ParseEntry(Stripped(line))
      case Err(e) => Bad(e)
      case Ok(te) => Entry(te)
  }

  function Outcomes(lines: seq<string>): (r: seq<LineOutcome>)
    ensures |r| == |lines|
    ensures forall i :: 0 <= i < |lines| ==> r[i] == OutcomeOf(lines[i])
  {
    seq(|lines|, i requires 0 <= i < |lines| => OutcomeOf(lines[i]))
  }

  /** What lines i, i+1, ... make of the entries found before them. */
  function LoadFrom(outcomes: seq<LineOutcome>, i: nat, tpl: seq<TemplateEntry>): Result<seq<TemplateEntry>, LoadError>
    requires i <= |outcomes|
    decreases |outcomes| - i
  {
    if i == |outcomes| then (if |tpl| == 0 then Err(NoEntries) else Ok(tpl))
    else match outcomes[i]
      case Skipped => LoadFrom(outcomes, i + 1, tpl)
      case Bad(e) => Err(BadLine(i + 1, e))
      case Entry(te) => LoadFrom(outcomes, i + 1, tpl + [te])
  }

  function Loaded(lines: seq<string>): Result<seq<TemplateEntry>, LoadError> {
    LoadFrom(Outcomes(lines), 0, [])
  }

  /** The loop of loadTemplate over the lines that the scanner yields, which number
      from 1; the scanner itself is not part of this model. */
  method LoadTemplate(lines: seq<string>) returns (r: Result<seq<TemplateEntry>, LoadError>)
    ensures r == Loaded(lines)
  {
    ghost var goal := Loaded(lines);
    assert Leads(lines, 0, [], goal);
    r := ReadAll(lines, goal, (i: nat, tpl: seq<TemplateEntry>) => Leads(lines, i, tpl, goal));
  }

  /** The same loop, which needs to know of Leads no more than its three rules. */
  method ReadAll(lines: seq<string>, ghost goal: Result<seq<TemplateEntry>, LoadError>,
      ghost leads: (nat, seq<TemplateEntry>) -> bool)
    returns (r: Result<seq<TemplateEntry>, LoadError>)
    requires Tracks(lines, goal, leads) && leads(0, [])
    ensures r == goal
  {
    var tpl: seq<TemplateEntry> := [];
    var error := None;
    var i, lineNo := 0, 1;
    while i < |lines|
      invariant 0 <= i <= |lines| && lineNo == i + 1
      invariant leads(i, tpl)
    {
      var lineNoCurrent := lineNo;
      lineNo := lineNo + 1;
      error, tpl := AddLine(lines, i, tpl, goal, leads);
      i := i + 1;
      if error.Some? {
        return Err(BadLine(lineNoCurrent, error.value));
      }
    }
    LoadEnds(lines, tpl, goal, leads);
    if |tpl| == 0 {
      return Err(NoEntries);
    }
    return Ok(tpl);
  }

  /** With the first i lines read and these entries found, the result will be goal. */
  ghost predicate Leads(lines: seq<string>, i: nat, tpl: seq<TemplateEntry>,
      goal: Result<seq<TemplateEntry>, LoadError>) {
    i <= |lines| && LoadFrom(Outcomes(lines), i, tpl) == goal
  }

  ghost predicate Tracks(lines: seq<string>, goal: Result<seq<TemplateEntry>, LoadError>,
      leads: (nat, seq<TemplateEntry>) -> bool) {
    forall i: nat, tpl {:trigger Leads(lines, i, tpl, goal)} :: leads(i, tpl) <==> Leads(lines, i, tpl, goal)
  }

  lemma LoadEnds(lines: seq<string>, tpl: seq<TemplateEntry>, goal: Result<seq<TemplateEntry>, LoadError>,
      leads: (nat, seq<TemplateEntry>) -> bool)
    requires Tracks(lines, goal, leads) && leads(|lines|, tpl)
    ensures goal == if |tpl| == 0 then Err(NoEntries) else Ok(tpl)
  {
    assert Leads(lines, |lines|, tpl, goal);
  }

  /** One line: nothing, an entry more, or an error. */
  method AddLine(lines: seq<string>, i: nat, tpl: seq<TemplateEntry>, ghost goal: Result<seq<TemplateEntry>, LoadError>,
                 ghost leads: (nat, seq<TemplateEntry>) -> bool)
    returns (error: Option<ParseError>, longer: seq<TemplateEntry>)
    requires i < |lines| && Tracks(lines, goal, leads) && leads(i, tpl)
    ensures error.None? ==> leads(i + 1, longer)
    ensures error.Some? ==> goal == Err(BadLine(i + 1, error.value))
  {
    assert Leads(lines, i, tpl, goal);
    error, longer := AddOutcome(lines, i, tpl, goal);
  }

  method AddOutcome(lines: seq<string>, i: nat, tpl: seq<TemplateEntry>,
      ghost goal: Result<seq<TemplateEntry>, LoadError>)
    returns (error: Option<ParseError>, longer: seq<TemplateEntry>)
    requires i < |lines| && Leads(lines, i, tpl, goal)
    ensures error.None? ==> Leads(lines, i + 1, longer, goal)
    ensures error.Some? ==> goal == Err(BadLine(i + 1, error.value))
  {
    var outcome := ReadLine(lines[i]);
    error, longer := None, tpl;
    match outcome
    case Skipped =>
    case Bad(cause) => error := Some(cause);
    case Entry(te) => longer := tpl + [te];
  }

  /** Strip one line and parse what is left, if anything. */
  method ReadLine(line: string) returns (outcome: LineOutcome)
    ensures outcome == OutcomeOf(line)
  {
    var text := Stripped(line);
    if text == "" {
      return Skipped;
    }
    var entry := NewTemplateEntry(text);
    if entry.Err? {
      return Bad(entry.error);
    }
    return Entry(entry.value);
  }

  /* ---- what loading promises --------------------------------------------------- */

  /** On a stripped line the domain really is the line's beginning, so the remainder
      that NewTemplateEntry slices off starts right after it, at white space. */
  lemma DomainLeadsLine(line: string)
    requires Stripped(line) != "" && ParseEntry(Stripped(line)).Ok?
    ensures var s, te := Stripped(line), ParseEntry(Stripped(line)).value;
            te.domain < s && IsSpace(s[|te.domain|])
  {
    var s := Stripped(line);
    var n := TokenLength(s);
    assert Fields(s) == [s[..n]] + Fields(s[n..]);
    assert Fields("") == [];
  }

  predicate NoHash(s: string) {
    forall i :: 0 <= i < |s| ==> s[i] != '#'
  }

  predicate EntryNoHash(te: TemplateEntry) {
    && NoHash(te.domain)
    && forall i :: 0 <= i < |te.validAnswers| ==> AnswerNoHash(te.validAnswers[i])
  }

  predicate AnswerNoHash(d: DNSAnswerData) {
    && NoHash(d.status)
    && (forall i :: 0 <= i < |d.a| ==> NoHash(d.a[i]))
    && (forall i :: 0 <= i < |d.cname| ==> NoHash(d.cname[i]))
  }

  lemma HashIndex(s: string)
    ensures NoHash(s) <==> Index(s, "#") == -1
  {
    forall i | 0 <= i < |s| ensures Occurs(s, "#", i) <==> s[i] == '#' {
      assert s[i..][0] == s[i];
    }
    if Index(s, "#") >= 0 { assert s[Index(s, "#")..][0] == '#'; }
  }

  lemma PartNoHash(s: string, i: nat, j: nat)
    requires NoHash(s) && i <= j <= |s|
    ensures NoHash(s[i..j])
    ensures NoHash(s[i..]) && NoHash(s[..j])
  {
  }

  lemma TrimWithin(s: string)
    requires NoHash(s)
    ensures NoHash(TrimSpace(s))
  {
    var l := TrimLeft(s);
    PartNoHash(s, |s| - |l|, |s|);
    PartNoHash(l, 0, |TrimRight(l)|);
  }

  lemma StrippedNoHash(line: string)
    ensures NoHash(Stripped(line))
  {
    var p := Split(line, "#")[0];
    SplitPieces(line, "#", p);
    HashIndex(p);
    TrimWithin(p);
  }

  lemma {:induction false} RecordsNoHash(tokens: seq<string>, d: DNSAnswerData)
    requires forall i :: 0 <= i < |tokens| ==> NoHash(tokens[i])
    requires AnswerNoHash(d) && WithRecords(tokens, d).Ok?
    ensures AnswerNoHash(WithRecords(tokens, d).value)
  {
    if tokens != [] {
      var tok := tokens[0];
      if HasPrefix(tok, "A=") {
        RecordsNoHash(tokens[1..], d.(a := d.a + [tok[2..]]));
      } else {
        LowerNoHash(tok[6..]);
        RecordsNoHash(tokens[1..], d.(cname := d.cname + [ToLower(tok[6..])]));
      }
    }
  }

  lemma LowerNoHash(s: string)
    requires NoHash(s)
    ensures NoHash(ToLower(s))
  {
  }

  lemma FieldsNoHash(s: string)
    requires NoHash(s)
    ensures forall i :: 0 <= i < |Fields(s)| ==> NoHash(Fields(s)[i])
  {
    forall i | 0 <= i < |Fields(s)| ensures NoHash(Fields(s)[i]) {
      var k := FieldWithin(s, i);
      var f := Fields(s)[i];
      assert forall j :: 0 <= j < |f| ==> f[j] == s[k + j];
    }
  }

  lemma StatusNoHash(s: string)
    requires IsStatusWord(s)
    ensures NoHash(s)
  {
  }

  lemma ParsedAnswerNoHash(text: string)
    requires NoHash(text) && ParseAnswer(text).Ok?
    ensures AnswerNoHash(ParseAnswer(text).value)
  {
    FieldsNoHash(text);
    var tokens := Fields(text);
    if |tokens| == 1 && IsStatusWord(tokens[0]) {
      StatusNoHash(tokens[0]);
    } else {
      RecordsNoHash(tokens, DNSAnswerData("NOERROR", [], []));
    }
  }

  lemma {:induction false} CollectedNoHash(answers: seq<Result<DNSAnswerData, ParseError>>, i: nat)
    requires i <= |answers| && forall k :: 0 <= k < |answers| && answers[k].Ok? ==> AnswerNoHash(answers[k].value)
    requires Collected(answers, i).Ok?
    ensures var ds := Collected(answers, i).value;
            forall k :: 0 <= k < |ds| ==> AnswerNoHash(ds[k])
    decreases |answers| - i
  {
    if i < |answers| {
      CollectedNoHash(answers, i + 1);
    }
  }

  lemma {:induction false} SplitWithin(s: string, sep: string, p: string)
    requires sep != "" && p in Split(s, sep) && NoHash(s)
    ensures NoHash(p)
    decreases |s|
  {
    var i := Index(s, sep);
    if i >= 0 && p != s[..i] {
      assert p in Split(s[i + |sep|..], sep);
      SplitWithin(s[i + |sep|..], sep, p);
    }
  }

  lemma ParsedNoHash(line: string)
    requires NoHash(line) && ParseEntry(line).Ok?
    ensures EntryNoHash(ParseEntry(line).value)
  {
    FieldsNoHash(line);
    FieldFits(line);
    var rest := line[|Fields(line)[0]|..];
    AlternativesNoHash(rest, AnswersOf(Split(rest, "||")));
    CollectedNoHash(AnswersOf(Split(rest, "||")), 0);
  }

  lemma AlternativesNoHash(rest: string, answers: seq<Result<DNSAnswerData, ParseError>>)
    requires NoHash(rest) && answers == AnswersOf(Split(rest, "||"))
    ensures forall k :: 0 <= k < |answers| && answers[k].Ok? ==> AnswerNoHash(answers[k].value)
  {
    var alts := Split(rest, "||");
    forall k | 0 <= k < |answers| && answers[k].Ok? ensures AnswerNoHash(answers[k].value) {
      SplitWithin(rest, "||", alts[k]);
      TrimWithin(alts[k]);
      ParsedAnswerNoHash(TrimSpace(alts[k]));
    }
  }

  lemma {:induction false} JoinNoHash(parts: seq<string>, sep: string)
    requires NoHash(sep) && forall i :: 0 <= i < |parts| ==> NoHash(parts[i])
    ensures NoHash(Join(parts, sep))
  {
    if |parts| > 1 {
      JoinNoHash(parts[1..], sep);
    }
  }

  lemma PrintedNoHash(te: TemplateEntry)
    requires EntryNoHash(te)
    ensures NoHash(PrintEntry(te))
  {
    var texts := PrintedAnswers(te.validAnswers);
    forall i | 0 <= i < |texts| ensures NoHash(texts[i]) {
      var d := te.validAnswers[i];
      assert AnswerNoHash(d);
      JoinNoHash(Records(d), " ");
    }
    JoinNoHash(texts, " || ");
  }

  lemma TrimNothing(s: string)
    requires s != "" && !IsSpace(s[0]) && !IsSpace(s[|s| - 1])
    ensures TrimSpace(s) == s
  {
  }

  lemma {:induction false} LastOfJoin(parts: seq<string>, sep: string)
    requires |parts| >= 1 && parts[|parts| - 1] != ""
    ensures var text := Join(parts, sep);
            text != "" && text[|text| - 1] == parts[|parts| - 1][|parts[|parts| - 1]| - 1]
  {
    if |parts| > 1 {
      LastOfJoin(parts[1..], sep);
    }
  }

  /** A printed entry is a line that stripping leaves alone. */
  lemma PrintedStripped(te: TemplateEntry)
    requires GoodEntry(te) && EntryNoHash(te)
    ensures Stripped(PrintEntry(te)) == PrintEntry(te) != ""
  {
    var text := PrintEntry(te);
    var texts := PrintedAnswers(te.validAnswers);
    PrintedNoHash(te);
    HashIndex(text);
    PrintedShape(te.validAnswers[|texts| - 1]);
    LastOfJoin(texts, " || ");
    TrimNothing(text);
  }

  predicate GoodTemplate(tpl: seq<TemplateEntry>) {
    forall i :: 0 <= i < |tpl| ==> GoodEntry(tpl[i]) && EntryNoHash(tpl[i])
  }

  lemma OutcomeIsGood(line: string)
    requires OutcomeOf(line).Entry?
    ensures GoodEntry(OutcomeOf(line).te) && EntryNoHash(OutcomeOf(line).te)
  {
    StrippedNoHash(line);
    ParsedIsGood(Stripped(line));
    ParsedNoHash(Stripped(line));
  }

  lemma {:induction false} LoadedIsGood(outcomes: seq<LineOutcome>, i: nat, tpl: seq<TemplateEntry>)
    requires i <= |outcomes| && GoodTemplate(tpl) && LoadFrom(outcomes, i, tpl).Ok?
    requires forall k :: 0 <= k < |outcomes| && outcomes[k].Entry? ==>
               GoodEntry(outcomes[k].te) && EntryNoHash(outcomes[k].te)
    ensures |LoadFrom(outcomes, i, tpl).value| >= 1 && GoodTemplate(LoadFrom(outcomes, i, tpl).value)
    decreases |outcomes| - i
  {
    if i < |outcomes| {
      if outcomes[i].Skipped? {
        LoadedIsGood(outcomes, i + 1, tpl);
      } else {
        LoadedIsGood(outcomes, i + 1, tpl + [outcomes[i].te]);
      }
    }
  }

  function PrintedLines(tpl: seq<TemplateEntry>): (r: seq<string>)
    ensures |r| == |tpl|
    ensures forall i :: 0 <= i < |tpl| ==> r[i] == PrintEntry(tpl[i])
  {
    seq(|tpl|, i requires 0 <= i < |tpl| => PrintEntry(tpl[i]))
  }

  lemma {:induction false} ReloadFrom(outcomes: seq<LineOutcome>, tpl: seq<TemplateEntry>, i: nat)
    requires i <= |tpl| == |outcomes| && |tpl| >= 1
    requires forall k :: 0 <= k < |tpl| ==> outcomes[k] == Entry(tpl[k])
    ensures LoadFrom(outcomes, i, tpl[..i]) == Ok(tpl)
    decreases |tpl| - i
  {
    if i == |tpl| {
      assert tpl[..i] == tpl;
    } else {
      assert tpl[..i] + [tpl[i]] == tpl[..i + 1];
      ReloadFrom(outcomes, tpl, i + 1);
    }
  }

  lemma PrintedOutcome(te: TemplateEntry)
    requires GoodEntry(te) && EntryNoHash(te)
    ensures OutcomeOf(PrintEntry(te)) == Entry(te)
  {
    PrintedStripped(te);
    PrintThenParse(te);
  }

  /** A loaded template has at least one entry and, written out one printed entry a
      line, loads again as itself. */
  lemma Reload(lines: seq<string>)
    requires Loaded(lines).Ok?
    ensures Loaded(PrintedLines(Loaded(lines).value)) == Loaded(lines)
    ensures |Loaded(lines).value| >= 1
  {
    var outcomes := Outcomes(lines);
    forall k | 0 <= k < |outcomes| && outcomes[k].Entry?
      ensures GoodEntry(outcomes[k].te) && EntryNoHash(outcomes[k].te)
    {
      OutcomeIsGood(lines[k]);
    }
    LoadedIsGood(outcomes, 0, []);
    var tpl := Loaded(lines).value;
    var again := Outcomes(PrintedLines(tpl));
    forall k | 0 <= k < |tpl| ensures again[k] == Entry(tpl[k]) {
      PrintedOutcome(tpl[k]);
    }
    ReloadFrom(again, tpl, 0);
    assert tpl[..0] == [];
  }

  /** The reported line is the first that is neither blank nor parseable, and its
      number counts from 1. */
  lemma {:induction false} FirstBad(outcomes: seq<LineOutcome>, i: nat, tpl: seq<TemplateEntry>, lineNo: nat,
      cause: ParseError)
    requires i <= |outcomes|
    ensures LoadFrom(outcomes, i, tpl) == Err(BadLine(lineNo, cause)) <==>
            && i < lineNo <= |outcomes| && outcomes[lineNo - 1] == Bad(cause)
            && forall k :: i <= k < lineNo - 1 ==> !outcomes[k].Bad?
    decreases |outcomes| - i
  {
    if i < |outcomes| {
      match outcomes[i]
      case Skipped => FirstBad(outcomes, i + 1, tpl, lineNo, cause);
      case Entry(te) => FirstBad(outcomes, i + 1, tpl + [te], lineNo, cause);
      case Bad(_) =>
    }
  }

  /** loadTemplate fails on line `lineNo` with `cause` exactly when that line, its
      comment cut off, is the first non-blank one that does not parse. */
  lemma BadLineIsFirst(lines: seq<string>, lineNo: nat, cause: ParseError)
    ensures Loaded(lines) == Err(BadLine(lineNo, cause)) <==>
            && 0 < lineNo <= |lines|
            && Stripped(lines[lineNo - 1]) != "" && ParseEntry(Stripped(lines[lineNo - 1])) == Err(cause)
            && forall k :: 0 <= k < lineNo - 1 ==> Stripped(lines[k]) == "" || ParseEntry(Stripped(lines[k])).Ok?
  {
    var outcomes := Outcomes(lines);
    FirstBad(outcomes, 0, [], lineNo, cause);
    if 0 < lineNo <= |lines| {
      OutcomeIsBad(lines[lineNo - 1], cause);
    }
    assert forall k :: 0 <= k < |lines| ==>
        (!outcomes[k].Bad? <==> Stripped(lines[k]) == "" || ParseEntry(Stripped(lines[k])).Ok?);
  }

  lemma OutcomeIsBad(line: string, cause: ParseError)
    ensures OutcomeOf(line) == Bad(cause) <==> Stripped(line) != "" && ParseEntry(Stripped(line)) == Err(cause)
  {
  }

  /** The line holds an entry, blank and comment lines aside. */
  predicate HoldsEntry(line: string) {
    Stripped(line) != "" && ParseEntry(Stripped(line)).Ok?
  }

  /** A line that is neither blank nor parseable. */
  predicate IsBad(line: string) {
    Stripped(line) != "" && ParseEntry(Stripped(line)).Err?
  }

  /** The entries that the lines hold, in order. */
  function EntriesOf(lines: seq<string>): seq<TemplateEntry> {
    if lines == [] then []
    else
      (if HoldsEntry(lines[0]) then [ParseEntry(Stripped(lines[0])).value] else []) + EntriesOf(lines[1..])
  }

  function EntriesFrom(outcomes: seq<LineOutcome>, i: nat): seq<TemplateEntry>
    requires i <= |outcomes|
    decreases |outcomes| - i
  {
    if i == |outcomes| then []
    else (if outcomes[i].Entry? then [outcomes[i].te] else []) + EntriesFrom(outcomes, i + 1)
  }

  lemma {:induction false} LoadsEntriesFrom(outcomes: seq<LineOutcome>, i: nat, tpl: seq<TemplateEntry>)
    requires i <= |outcomes| && forall k :: i <= k < |outcomes| ==> !outcomes[k].Bad?
    ensures LoadFrom(outcomes, i, tpl) ==
            var all := tpl + EntriesFrom(outcomes, i);
            if all == [] then Err(NoEntries) else Ok(all)
    decreases |outcomes| - i
  {
    if i == |outcomes| {
      assert tpl + [] == tpl;
    } else {
      match outcomes[i]
      case Skipped =>
        LoadsEntriesFrom(outcomes, i + 1, tpl);
        assert [] + EntriesFrom(outcomes, i + 1) == EntriesFrom(outcomes, i + 1);
      case Entry(te) =>
        LoadsEntriesFrom(outcomes, i + 1, tpl + [te]);
        assert tpl + ([te] + EntriesFrom(outcomes, i + 1)) == tpl + [te] + EntriesFrom(outcomes, i + 1);
    }
  }

  lemma OutcomeKinds(line: string)
    ensures OutcomeOf(line).Bad? <==> IsBad(line)
    ensures OutcomeOf(line).Entry? <==> HoldsEntry(line)
    ensures HoldsEntry(line) ==> OutcomeOf(line).te == ParseEntry(Stripped(line)).value
  {
  }

  lemma {:induction false} EntriesOfOutcomes(lines: seq<string>, i: nat)
    requires i <= |lines|
    ensures EntriesFrom(Outcomes(lines), i) == EntriesOf(lines[i..])
    decreases |lines| - i
  {
    if i < |lines| {
      EntriesOfOutcomes(lines, i + 1);
      OutcomeKinds(lines[i]);
      assert lines[i..][1..] == lines[i + 1..];
    }
  }

  /** Without a bad line the template is the entries of the lines, all of them and in
      order; and it is refused if there are none. */
  lemma LoadedInOrder(lines: seq<string>)
    requires forall k :: 0 <= k < |lines| ==> !IsBad(lines[k])
    ensures Loaded(lines) == if EntriesOf(lines) == [] then Err(NoEntries) else Ok(EntriesOf(lines))
  {
    var outcomes := Outcomes(lines);
    NoneBad(lines, outcomes);
    LoadsEntriesFrom(outcomes, 0, []);
    AllEntries(lines, outcomes);
  }

  lemma NoneBad(lines: seq<string>, outcomes: seq<LineOutcome>)
    requires outcomes == Outcomes(lines) && forall k :: 0 <= k < |lines| ==> !IsBad(lines[k])
    ensures forall k :: 0 <= k < |outcomes| ==> !outcomes[k].Bad?
  {
    forall k | 0 <= k < |lines| ensures !outcomes[k].Bad? {
      OutcomeKinds(lines[k]);
    }
  }

  lemma AllEntries(lines: seq<string>, outcomes: seq<LineOutcome>)
    requires outcomes == Outcomes(lines)
    ensures [] + EntriesFrom(outcomes, 0) == EntriesOf(lines)
  {
    EntriesOfOutcomes(lines, 0);
    assert lines[0..] == lines;
    assert [] + EntriesFrom(outcomes, 0) == EntriesFrom(outcomes, 0);
  }

  /* ---- comments ------------------------------------------------------------------- */

  /** Hash-free text cannot show a hash before the one put behind it. */
  lemma HashFreeIsClean(a: string)
    requires NoHash(a)
    ensures Clean(a, "#") && Index(a, "#") == -1
  {
    HashIndex(a);
    HashIndex(a + "#");
    forall k | 0 <= k < |a| ensures !Occurs(a + "#", "#", k) {
      assert (a + "#")[k..][0] == a[k];
    }
  }

  /** Everything from the first '#' on is cut off, and what is left is trimmed. */
  lemma CommentCut(a: string, b: string)
    requires NoHash(a)
    ensures Stripped(a + "#" + b) == TrimSpace(a) && Stripped(a) == TrimSpace(a)
  {
    HashFreeIsClean(a);
    SplitCons(a, "#", b);
  }

  /** The line itself, or the line with something put behind a '#' at its end. */
  ghost predicate Commented(line: string, with: string) {
    with == line || (NoHash(line) && exists b :: with == line + "#" + b)
  }

  /** Comments change nothing in what is loaded, errors and line numbers included. */
  lemma CommentsChangeNothing(lines: seq<string>, withComments: seq<string>)
    requires |lines| == |withComments| && forall k :: 0 <= k < |lines| ==> Commented(lines[k], withComments[k])
    ensures Loaded(withComments) == Loaded(lines)
  {
    forall k | 0 <= k < |lines| ensures Outcomes(withComments)[k] == Outcomes(lines)[k] {
      SameStripped(lines[k], withComments[k]);
    }
    assert Outcomes(withComments) == Outcomes(lines);
  }

  lemma SameStripped(line: string, with: string)
    requires Commented(line, with)
    ensures Stripped(with) == Stripped(line)
  {
    if with != line {
      var b :| with == line + "#" + b;
      CommentCut(line, b);
    }
  }
}
