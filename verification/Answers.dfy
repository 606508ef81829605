/** DNS answers and template entries: their text form and their meaning. */
module Answers {
  import opened Text
  import opened Matching

  datatype Option<+T> = None | Some(value: T)
  datatype Result<+T, +E> = Ok(value: T) | Err(error: E)

  datatype DNSAnswerData = DNSAnswerData(status: string, a: seq<string>, cname: seq<string>)
  datatype DNSAnswer = DNSAnswer(domain: string, data: DNSAnswerData, truncated: bool)
  datatype TemplateEntry = TemplateEntry(domain: string, validAnswers: seq<DNSAnswerData>)

  datatype ParseError = MissingFields | EmptyAnswer | InvalidRecord(token: string)

  /* ---- one answer ------------------------------------------------------- */

  predicate IsStatusWord(s: string) {
    s == "TIMEOUT" || s == "NOERROR" || s == "FORMERR" || s == "NOTIMP" || s == "NXDOMAIN" || s == "SERVFAIL"
  }

  /** What the record tokens add to an answer, first token first. */
  function WithRecords(tokens: seq<string>, d: DNSAnswerData): Result<DNSAnswerData, ParseError> {
    if tokens == [] then Ok(d)
    else if HasPrefix(tokens[0], "A=") then
      WithRecords(tokens[1..], d.(a := d.a + [tokens[0][2..]]))
    else if HasPrefix(tokens[0], "CNAME=") then
      WithRecords(tokens[1..], d.(cname := d.cname + [ToLower(tokens[0][6..])]))
    else Err(InvalidRecord(tokens[0]))
  }

  function AnswerOfTokens(tokens: seq<string>): Result<DNSAnswerData, ParseError> {
    if tokens == [] then Err(EmptyAnswer)
    else if |tokens| == 1 && IsStatusWord(tokens[0]) then Ok(DNSAnswerData(tokens[0], [], []))
    else WithRecords(tokens, DNSAnswerData("NOERROR", [], []))
  }

  function ParseAnswer(text: string): Result<DNSAnswerData, ParseError> {
    AnswerOfTokens(Fields(text))
  }

  /** A token that is an A or a CNAME record. */
  predicate IsRecord(token: string) {
    "A=" <= token || "CNAME=" <= token
  }

  /** What stands behind a prefix in the tokens that begin with it, in order. */
  function Tails(tokens: seq<string>, prefix: string): seq<string> {
    if tokens == [] then []
    else (if prefix <= tokens[0] then [tokens[0][|prefix|..]] else []) + Tails(tokens[1..], prefix)
  }

  /** The meaning of an answer's text by its fields: nothing; a lone status word; records
      only, sorted by kind and else in their order; or the first field that is neither. */
  ghost predicate Reads(tokens: seq<string>, r: Result<DNSAnswerData, ParseError>) {
    if tokens == [] then r == Err(EmptyAnswer)
    else if |tokens| == 1 && tokens[0] in {"TIMEOUT", "NOERROR", "FORMERR", "NOTIMP", "NXDOMAIN", "SERVFAIL"} then
      r == Ok(DNSAnswerData(tokens[0], [], []))
    else if forall k :: 0 <= k < |tokens| ==> IsRecord(tokens[k]) then
      r == Ok(DNSAnswerData("NOERROR", Tails(tokens, "A="), Lowered(Tails(tokens, "CNAME="))))
    else FirstNoRecord(tokens, r)
  }

  ghost predicate FirstNoRecord(tokens: seq<string>, r: Result<DNSAnswerData, ParseError>) {
    exists k :: 0 <= k < |tokens| && !IsRecord(tokens[k]) && r == Err(InvalidRecord(tokens[k])) &&
                forall j :: 0 <= j < k ==> IsRecord(tokens[j])
  }

  lemma LoweredConcat(a: seq<string>, b: seq<string>)
    ensures Lowered(a + b) == Lowered(a) + Lowered(b)
  {
  }

  lemma OneKind(token: string)
    ensures !("A=" <= token && "CNAME=" <= token)
  {
    if "A=" <= token { assert token[0] == 'A'; }
    if "CNAME=" <= token { assert token[0] == 'C'; }
  }

  lemma TailsFirst(tokens: seq<string>, prefix: string)
    requires tokens != []
    ensures prefix <= tokens[0] ==> Tails(tokens, prefix) == [tokens[0][|prefix|..]] + Tails(tokens[1..], prefix)
    ensures !(prefix <= tokens[0]) ==> Tails(tokens, prefix) == Tails(tokens[1..], prefix)
  {
    assert [] + Tails(tokens[1..], prefix) == Tails(tokens[1..], prefix);
  }

  lemma Shift(xs: seq<string>, x: string, ys: seq<string>)
    ensures (xs + [x]) + ys == xs + ([x] + ys)
  {
  }

  /** An answer with more records behind those it has. */
  function Plus(d: DNSAnswerData, a: seq<string>, cname: seq<string>): DNSAnswerData {
    d.(a := d.a + a, cname := d.cname + cname)
  }

  lemma {:induction false} RecordsOf(tokens: seq<string>, d: DNSAnswerData)
    requires forall k :: 0 <= k < |tokens| ==> IsRecord(tokens[k])
    ensures WithRecords(tokens, d) == Ok(Plus(d, Tails(tokens, "A="), Lowered(Tails(tokens, "CNAME="))))
  {
    if tokens == [] {
      assert d.a + [] == d.a && d.cname + Lowered([]) == d.cname;
    } else {
      assert IsRecord(tokens[0]);
      assert forall k :: 0 <= k < |tokens[1..]| ==> tokens[1..][k] == tokens[k + 1];
      if "A=" <= tokens[0] {
        RecordsOf(tokens[1..], d.(a := d.a + [tokens[0][2..]]));
        AddressFirst(tokens, d);
      } else {
        RecordsOf(tokens[1..], d.(cname := d.cname + [ToLower(tokens[0][6..])]));
        CnameFirst(tokens, d);
      }
    }
  }

  lemma AddressFirst(tokens: seq<string>, d: DNSAnswerData)
    requires tokens != [] && "A=" <= tokens[0]
    ensures var c := Lowered(Tails(tokens, "CNAME="));
            Plus(d.(a := d.a + [tokens[0][2..]]), Tails(tokens[1..], "A="), Lowered(Tails(tokens[1..], "CNAME="))) ==
            Plus(d, Tails(tokens, "A="), c)
  {
    OneKind(tokens[0]);
    TailsFirst(tokens, "A=");
    TailsFirst(tokens, "CNAME=");
    Shift(d.a, tokens[0][2..], Tails(tokens[1..], "A="));
  }

  lemma CnameFirst(tokens: seq<string>, d: DNSAnswerData)
    requires tokens != [] && "CNAME=" <= tokens[0]
    ensures var c := Lowered(Tails(tokens[1..], "CNAME="));
            Plus(d.(cname := d.cname + [ToLower(tokens[0][6..])]), Tails(tokens[1..], "A="), c) ==
            Plus(d, Tails(tokens, "A="), Lowered(Tails(tokens, "CNAME=")))
  {
    var tail := tokens[0][6..];
    OneKind(tokens[0]);
    TailsFirst(tokens, "A=");
    TailsFirst(tokens, "CNAME=");
    LoweredConcat([tail], Tails(tokens[1..], "CNAME="));
    assert Lowered([tail]) == [ToLower(tail)];
    Shift(d.cname, ToLower(tail), Lowered(Tails(tokens[1..], "CNAME=")));
  }

  lemma {:induction false} NoRecord(tokens: seq<string>, d: DNSAnswerData, k: nat)
    requires k < |tokens| && !IsRecord(tokens[k]) && forall j :: 0 <= j < k ==> IsRecord(tokens[j])
    ensures WithRecords(tokens, d) == Err(InvalidRecord(tokens[k]))
  {
    if k > 0 {
      var tok, rest := tokens[0], tokens[1..];
      assert IsRecord(tok);
      if "A=" <= tok {
        NoRecord(rest, d.(a := d.a + [tok[2..]]), k - 1);
      } else {
        NoRecord(rest, d.(cname := d.cname + [ToLower(tok[6..])]), k - 1);
      }
    }
  }

  lemma {:induction false} FirstOther(tokens: seq<string>, from: nat) returns (k: nat)
    requires from <= |tokens| && exists i :: from <= i < |tokens| && !IsRecord(tokens[i])
    ensures from <= k < |tokens| && !IsRecord(tokens[k]) && forall j :: from <= j < k ==> IsRecord(tokens[j])
    decreases |tokens| - from
  {
    k := from;
    if IsRecord(tokens[from]) { k := FirstOther(tokens, from + 1); }
  }

  lemma TokensRead(tokens: seq<string>)
    ensures Reads(tokens, AnswerOfTokens(tokens))
  {
    if tokens != [] && !(|tokens| == 1 && IsStatusWord(tokens[0])) {
      var none := DNSAnswerData("NOERROR", [], []);
      if forall k :: 0 <= k < |tokens| ==> IsRecord(tokens[k]) {
        RecordsOf(tokens, none);
        assert [] + Tails(tokens, "A=") == Tails(tokens, "A=");
        assert [] + Lowered(Tails(tokens, "CNAME=")) == Lowered(Tails(tokens, "CNAME="));
      } else {
        var k := FirstOther(tokens, 0);
        NoRecord(tokens, none, k);
      }
    }
  }

  function Prefixed(prefix: string, ss: seq<string>): (r: seq<string>)
    ensures |r| == |ss|
    ensures forall i :: 0 <= i < |ss| ==> r[i] == prefix + ss[i]
  {
    seq(|ss|, i requires 0 <= i < |ss| => prefix + ss[i])
  }

  function Records(d: DNSAnswerData): seq<string> {
    Prefixed("A=", d.a) + Prefixed("CNAME=", d.cname)
  }

  function PrintAnswer(d: DNSAnswerData): string {
    if |d.a| == 0 && |d.cname| == 0 then d.status else Join(Records(d), " ")
  }

  /** The function NewDNSAnswerData. */
  method NewDNSAnswerData(data: string) returns (r: Result<DNSAnswerData, ParseError>)
    ensures Reads(Fields(data), r)
    ensures r == ParseAnswer(data)
  {
    TokensRead(Fields(data));
    r := ParseTokens(Fields(data));
  }

  method ParseTokens(tokens: seq<string>) returns (r: Result<DNSAnswerData, ParseError>)
    ensures r == AnswerOfTokens(tokens)
  {
    if |tokens| == 0 {
      return Err(EmptyAnswer);
    }
    if |tokens| == 1 && IsStatusWord(tokens[0]) {
      return Ok(DNSAnswerData(tokens[0], [], []));
    }
    var a, cname: seq<string> := [], [];
    var i := 0;
    while i < |tokens|
      invariant 0 <= i <= |tokens|
      invariant WithRecords(tokens[i..], DNSAnswerData("NOERROR", a, cname)) == AnswerOfTokens(tokens)
    {
      var tok := tokens[i];
      assert tokens[i..][1..] == tokens[i + 1..];
      if HasPrefix(tok, "A=") {
        a := a + [tok[2..]];
      } else if HasPrefix(tok, "CNAME=") {
        cname := cname + [ToLower(tok[6..])];
      } else {
        return Err(InvalidRecord(tok));
      }
      i := i + 1;
    }
    return Ok(DNSAnswerData("NOERROR", a, cname));
  }

  /** DNSAnswerData.ToString. */
  method AnswerToString(d: DNSAnswerData) returns (text: string)
    ensures text == PrintAnswer(d)
  {
    if |d.a| == 0 && |d.cname| == 0 {
      return d.status;
    }
    var records: seq<string> := [];
    var i := 0;
    while i < |d.a|
      invariant 0 <= i <= |d.a| && records == Prefixed("A=", d.a)[..i]
    {
      records := records + ["A=" + d.a[i]];
      i := i + 1;
    }
    i := 0;
    while i < |d.cname|
      invariant 0 <= i <= |d.cname| && records == Prefixed("A=", d.a) + Prefixed("CNAME=", d.cname)[..i]
    {
      records := records + ["CNAME=" + d.cname[i]];
      i := i + 1;
    }
    assert records == Records(d);
    return Join(records, " ");
  }

  /* ---- one entry --------------------------------------------------------- */

  /** What the alternatives give, each on its own. */
  function AnswersOf(alts: seq<string>): (r: seq<Result<DNSAnswerData, ParseError>>)
    ensures |r| == |alts|
    ensures forall i :: 0 <= i < |alts| ==> r[i] == ParseAnswer(TrimSpace(alts[i]))
  {
    seq(|alts|, i requires 0 <= i < |alts| => ParseAnswer(TrimSpace(alts[i])))
  }

  /** All answers from the i-th on, or the first error among them. */
  function Collected(answers: seq<Result<DNSAnswerData, ParseError>>, i: nat): Result<seq<DNSAnswerData>, ParseError>
    requires i <= |answers|
    decreases |answers| - i
  {
    if i == |answers| then Ok([])
    else match answers[i]
      case Err(e) => Err(e)
      case Ok(d) => InFront([d], Collected(answers, i + 1))
  }

  function InFront(ds: seq<DNSAnswerData>, r: Result<seq<DNSAnswerData>, ParseError>)
    : Result<seq<DNSAnswerData>, ParseError> {
    match r
    case Err(e) => Err(e)
    case Ok(rest) => Ok(ds + rest)
  }

  function ParseEntry(line: string): Result<TemplateEntry, ParseError> {
    var parts := Fields(line);
    if |parts| < 2 then Err(MissingFields)
    else
      FieldFits(line);
      match Collected(AnswersOf(Split(line[|parts[0]|..], "||")), 0)
      case Err(e) => Err(e)
      case Ok(ds) => Ok(TemplateEntry(parts[0], ds))
  }

  /** The first field is no longer than the line, so the slice after it is in range. */
  lemma {:induction false} FieldFits(line: string)
    ensures |Fields(line)| > 0 ==> |Fields(line)[0]| <= |line|
    decreases |line|
  {
    if line != "" && IsSpace(line[0]) {
      FieldFits(line[1..]);
    }
  }

  function PrintedAnswers(ds: seq<DNSAnswerData>): (r: seq<string>)
    ensures |r| == |ds|
    ensures forall i :: 0 <= i < |ds| ==> r[i] == PrintAnswer(ds[i])
  {
    seq(|ds|, i requires 0 <= i < |ds| => PrintAnswer(ds[i]))
  }

  function PrintEntry(te: TemplateEntry): string {
    te.domain + " " + Join(PrintedAnswers(te.validAnswers), " || ")
  }

  /** The function NewTemplateEntry. */
  method NewTemplateEntry(line: string) returns (r: Result<TemplateEntry, ParseError>)
    ensures r == ParseEntry(line)
  {
    var parts := Fields(line);
    if |parts| < 2 {
      return Err(MissingFields);
    }
    FieldFits(line);
    var domain := parts[0];
    var alts := Split(line[|domain|..], "||");
    var answers := ParseEach(alts);
    if answers.Err? {
      return Err(answers.error);
    }
    return Ok(TemplateEntry(domain, answers.value));
  }

  /** The meaning of an entry's line: at least two fields, of which the first is the
      domain; and behind it alternatives between "||", each trimmed and read on its own. */
  lemma EntryReads(line: string)
    ensures |Fields(line)| < 2 ==> ParseEntry(line) == Err(MissingFields)
    ensures |Fields(line)| >= 2 ==>
              && |Fields(line)[0]| <= |line|
              && ReadsAll(Fields(line)[0], AnswersOf(Split(line[|Fields(line)[0]|..], "||")), ParseEntry(line))
  {
    FieldFits(line);
    var parts := Fields(line);
    if |parts| >= 2 {
      var answers := AnswersOf(Split(line[|parts[0]|..], "||"));
      AllRead(parts[0], answers, ParseEntry(line));
    }
  }

  /** Either all the answers, or the first error among them. */
  ghost predicate ReadsAll(domain: string, answers: seq<Result<DNSAnswerData, ParseError>>,
      r: Result<TemplateEntry, ParseError>) {
    if forall k :: 0 <= k < |answers| ==> answers[k].Ok? then r == Ok(TemplateEntry(domain, ValuesOf(answers)))
    else FirstFailure(answers, r)
  }

  lemma AllRead(domain: string, answers: seq<Result<DNSAnswerData, ParseError>>, r: Result<TemplateEntry, ParseError>)
    requires match Collected(answers, 0)
             case Err(e) => r == Err(e)
             case Ok(ds) => r == Ok(TemplateEntry(domain, ds))
    ensures ReadsAll(domain, answers, r)
  {
    CollectedMeans(answers, 0);
    assert answers[0..] == answers;
  }

  function ValuesOf(answers: seq<Result<DNSAnswerData, ParseError>>): seq<DNSAnswerData>
    requires forall k :: 0 <= k < |answers| ==> answers[k].Ok?
  {
    seq(|answers|, k requires 0 <= k < |answers| => answers[k].value)
  }

  ghost predicate FirstFailure(answers: seq<Result<DNSAnswerData, ParseError>>, r: Result<TemplateEntry, ParseError>) {
    exists k :: 0 <= k < |answers| && answers[k].Err? && r == Err(answers[k].error) &&
                forall j :: 0 <= j < k ==> answers[j].Ok?
  }

  lemma {:induction false} CollectedMeans(answers: seq<Result<DNSAnswerData, ParseError>>, i: nat)
    requires i <= |answers|
    ensures if forall k :: i <= k < |answers| ==> answers[k].Ok?
            then Collected(answers, i) == Ok(ValuesOf(answers[i..]))
            else exists k :: i <= k < |answers| && answers[k].Err? && Collected(answers, i) == Err(answers[k].error) &&
                             forall j :: i <= j < k ==> answers[j].Ok?
    decreases |answers| - i
  {
    if i < |answers| {
      CollectedMeans(answers, i + 1);
      if forall k :: i <= k < |answers| ==> answers[k].Ok? {
        assert ValuesOf(answers[i..]) == [answers[i].value] + ValuesOf(answers[i + 1..]);
      } else if answers[i].Ok? {
        var k :| i + 1 <= k < |answers| && answers[k].Err? && Collected(answers, i + 1) == Err(answers[k].error)
                 && forall j :: i + 1 <= j < k ==> answers[j].Ok?;
        assert Collected(answers, i) == Err(answers[k].error);
      } else {
        assert Collected(answers, i) == Err(answers[i].error);
      }
    } else {
      assert ValuesOf(answers[i..]) == [];
    }
  }

  /** The printed forms: a status alone; else the A records and then the CNAMEs, one space
      apart. */
  lemma AnswerText(d: DNSAnswerData)
    ensures d.a == d.cname == [] ==> PrintAnswer(d) == d.status
    ensures d.a != [] || d.cname != [] ==>
              exists tokens :: RecordTexts(d, tokens) && PrintAnswer(d) == Join(tokens, " ")
  {
    if d.a != [] || d.cname != [] { assert RecordTexts(d, Records(d)); }
  }

  /** The domain, one space, and the alternatives' texts between " || ". */
  lemma EntryText(te: TemplateEntry)
    ensures exists texts :: AlternativeTexts(te, texts) && PrintEntry(te) == te.domain + " " + Join(texts, " || ")
  {
    assert AlternativeTexts(te, PrintedAnswers(te.validAnswers));
  }

  ghost predicate AlternativeTexts(te: TemplateEntry, texts: seq<string>) {
    |texts| == |te.validAnswers| && forall k :: 0 <= k < |texts| ==> texts[k] == PrintAnswer(te.validAnswers[k])
  }

  ghost predicate RecordTexts(d: DNSAnswerData, tokens: seq<string>) {
    && |tokens| == |d.a| + |d.cname|
    && (forall i :: 0 <= i < |d.a| ==> tokens[i] == "A=" + d.a[i])
    && (forall i :: 0 <= i < |d.cname| ==> tokens[|d.a| + i] == "CNAME=" + d.cname[i])
  }

  lemma CollectStep(ds: seq<DNSAnswerData>, answers: seq<Result<DNSAnswerData, ParseError>>, i: nat)
    requires i < |answers|
    ensures answers[i].Err? ==> InFront(ds, Collected(answers, i)) == Err(answers[i].error)
    ensures answers[i].Ok? ==>
              InFront(ds, Collected(answers, i)) == InFront(ds + [answers[i].value], Collected(answers, i + 1))
  {
    if answers[i].Ok? && Collected(answers, i + 1).Ok? {
      var rest := Collected(answers, i + 1).value;
      assert ds + ([answers[i].value] + rest) == (ds + [answers[i].value]) + rest;
    }
  }

  lemma CollectEnds(ds: seq<DNSAnswerData>, answers: seq<Result<DNSAnswerData, ParseError>>)
    ensures InFront(ds, Collected(answers, |answers|)) == Ok(ds)
    ensures InFront([], Collected(answers, 0)) == Collected(answers, 0)
  {
    assert ds + [] == ds;
    if Collected(answers, 0).Ok? { assert [] + Collected(answers, 0).value == Collected(answers, 0).value; }
  }

  /** The loop of NewTemplateEntry over the alternatives. */
  method ParseEach(alts: seq<string>) returns (r: Result<seq<DNSAnswerData>, ParseError>)
    ensures r == Collected(AnswersOf(alts), 0)
  {
    CollectEnds([], AnswersOf(alts));
    ghost var all := Collected(AnswersOf(alts), 0);
    assert ParsedSoFar(alts, 0, [], all);
    r := ParseAll(alts, all, (i: nat, valid: seq<DNSAnswerData>) => ParsedSoFar(alts, i, valid, all));
  }

  /** The same loop, which needs to know of ParsedSoFar no more than its three rules. */
  method ParseAll(alts: seq<string>, ghost all: Result<seq<DNSAnswerData>, ParseError>,
      ghost soFar: (nat, seq<DNSAnswerData>) -> bool)
    returns (r: Result<seq<DNSAnswerData>, ParseError>)
    requires Tracks(alts, all, soFar) && soFar(0, [])
    ensures r == all
  {
    var validAnswers: seq<DNSAnswerData> := [];
    var error := None;
    var i := 0;
    while i < |alts|
      invariant 0 <= i <= |alts|
      invariant soFar(i, validAnswers)
    {
      error, validAnswers := ParseNext(alts, i, validAnswers, all, soFar);
      if error.Some? {
        return Err(error.value);
      }
      i := i + 1;
    }
    ParsingEnds(alts, validAnswers, all, soFar);
    return Ok(validAnswers);
  }

  /** With the first i alternatives parsed to these answers, the result will be all. */
  ghost predicate ParsedSoFar(alts: seq<string>, i: nat, valid: seq<DNSAnswerData>,
      all: Result<seq<DNSAnswerData>, ParseError>) {
    i <= |alts| && InFront(valid, Collected(AnswersOf(alts), i)) == all
  }

  ghost predicate Tracks(alts: seq<string>, all: Result<seq<DNSAnswerData>, ParseError>,
      soFar: (nat, seq<DNSAnswerData>) -> bool) {
    forall i: nat, valid {:trigger ParsedSoFar(alts, i, valid, all)} ::
      soFar(i, valid) <==> ParsedSoFar(alts, i, valid, all)
  }

  lemma ParsingEnds(alts: seq<string>, valid: seq<DNSAnswerData>, all: Result<seq<DNSAnswerData>, ParseError>,
      soFar: (nat, seq<DNSAnswerData>) -> bool)
    requires Tracks(alts, all, soFar) && soFar(|alts|, valid)
    ensures all == Ok(valid)
  {
    assert ParsedSoFar(alts, |alts|, valid, all);
    CollectEnds(valid, AnswersOf(alts));
  }

  method ParseNext(alts: seq<string>, i: nat, valid: seq<DNSAnswerData>,
      ghost all: Result<seq<DNSAnswerData>, ParseError>,
                   ghost soFar: (nat, seq<DNSAnswerData>) -> bool)
    returns (error: Option<ParseError>, longer: seq<DNSAnswerData>)
    requires i < |alts| && Tracks(alts, all, soFar) && soFar(i, valid)
    ensures error.None? ==> soFar(i + 1, longer)
    ensures error.Some? ==> all == Err(error.value)
  {
    assert ParsedSoFar(alts, i, valid, all);
    CollectStep(valid, AnswersOf(alts), i);
    error, longer := None, valid;
    var answer := NewDNSAnswerData(TrimSpace(alts[i]));
    if answer.Err? {
      error := Some(answer.error);
    } else {
      longer := valid + [answer.value];
      assert ParsedSoFar(alts, i + 1, longer, all);
    }
  }

  /** TemplateEntry.ToString. */
  method EntryToString(te: TemplateEntry) returns (text: string)
    ensures text == PrintEntry(te)
  {
    var altList: seq<string> := [];
    var i := 0;
    while i < |te.validAnswers|
      invariant 0 <= i <= |te.validAnswers| && altList == PrintedAnswers(te.validAnswers)[..i]
    {
      var alt := AnswerToString(te.validAnswers[i]);
      altList := altList + [alt];
      i := i + 1;
    }
    assert altList == PrintedAnswers(te.validAnswers);
    return te.domain + " " + Join(altList, " || ");
  }

  /* ---- matching and retrying ----------------------------------------------- */

  ghost predicate ChoiceMatches(choice: DNSAnswerData, da: DNSAnswer) {
    && choice.status == da.data.status
    && RecordsMatch(choice.a, da.data.a)
    && RecordsMatch(choice.cname, da.data.cname)
  }

  /** The answer is for the entry's domain, and one of the entry's alternatives has
      its status and pairs its records with the answer's one to one. */
  ghost predicate EntryMatches(te: Option<TemplateEntry>, da: Option<DNSAnswer>) {
    && te.Some? && da.Some? && te.value.domain == da.value.domain
    && exists i :: 0 <= i < |te.value.validAnswers| && ChoiceMatches(te.value.validAnswers[i], da.value)
  }

  /** TemplateEntry.Matches; None stands for nil. */
  method Matches(te: Option<TemplateEntry>, da: Option<DNSAnswer>) returns (matched: bool)
    ensures matched <==> EntryMatches(te, da)
  {
    if te.Some? && da.Some? && te.value.domain == da.value.domain {
      var i := 0;
      while i < |te.value.validAnswers|
        invariant 0 <= i <= |te.value.validAnswers|
        invariant forall k :: 0 <= k < i ==> !ChoiceMatches(te.value.validAnswers[k], da.value)
      {
        var choice := te.value.validAnswers[i];
        if choice.status == da.value.data.status {
          var aOk := MatchRecords(choice.a, da.value.data.a);
          if aOk {
            var cnameOk := MatchRecords(choice.cname, da.value.data.cname);
            if cnameOk {
              return true;
            }
          }
        }
        i := i + 1;
      }
    }
    return false;
  }

  /** The statuses that deserve another attempt, and no others. */
  lemma WorthRetrying(answer: DNSAnswer)
    ensures IsWorthRetrying(Some(answer)) <==>
            || answer.data.status == "TIMEOUT"
            || answer.data.status == "SERVFAIL"
            || (answer.data.status == "NOERROR" && answer.truncated)
    ensures !IsWorthRetrying(None)
  {
  }

  /** DNSAnswer.IsWorthRetrying: a transient error, or a truncated success. */
  predicate IsWorthRetrying(da: Option<DNSAnswer>) {
    match da
    case None => false
    case Some(answer) =>
      if answer.data.status == "TIMEOUT" || answer.data.status == "SERVFAIL" then true
      else if answer.data.status == "NOERROR" then answer.truncated
      else false
  }
}
