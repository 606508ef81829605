/** Printing and parsing template entries are inverse to each other. */
module RoundTrip {
  import opened Text
  import opened Answers

  /* ---- which entries the parser can produce --------------------------------- */

  predicate NoSpace(s: string) {
    forall i :: 0 <= i < |s| ==> !IsSpace(s[i])
  }

  predicate NoBars(s: string) {
    forall i :: 0 <= i < |s| - 1 ==> !(s[i] == '|' && s[i + 1] == '|')
  }

  predicate GoodValue(v: string) {
    NoSpace(v) && NoBars(v)
  }

  /** A lone status word, or a NOERROR with at least one record. Record values may be
      empty and may hold single bars; CNAMEs are lower case. */
  predicate GoodAnswer(d: DNSAnswerData) {
    if |d.a| == 0 && |d.cname| == 0 then IsStatusWord(d.status)
    else GoodRecords(d)
  }

  predicate GoodRecords(d: DNSAnswerData) {
    && d.status == "NOERROR"
    && (forall i :: 0 <= i < |d.a| ==> GoodValue(d.a[i]))
    && (forall i :: 0 <= i < |d.cname| ==> GoodValue(d.cname[i]) && ToLower(d.cname[i]) == d.cname[i])
  }

  /** Entries with a domain that is one field (it may even hold "||") and at least
      one good answer. */
  predicate GoodEntry(te: TemplateEntry) {
    && IsToken(te.domain) && |te.validAnswers| >= 1
    && forall i :: 0 <= i < |te.validAnswers| ==> GoodAnswer(te.validAnswers[i])
  }

  /* ---- bars ------------------------------------------------------------------- */

  lemma BarsAt(s: string, k: nat)
    requires k <= |s|
    ensures Occurs(s, "||", k) <==> k + 1 < |s| && s[k] == '|' && s[k + 1] == '|'
  {
    if k + 1 < |s| {
      assert s[k..][0] == s[k] && s[k..][1] == s[k + 1];
      if s[k] == '|' && s[k + 1] == '|' { assert s[k..][..2] == "||"; }
    }
    if Occurs(s, "||", k) {
      assert s[k..][0] == '|' && s[k..][1] == '|';
    }
  }

  lemma NoBarsIndex(s: string)
    ensures NoBars(s) <==> Index(s, "||") == -1
  {
    var r := Index(s, "||");
    if r >= 0 {
      BarsAt(s, r);
    } else {
      forall i | 0 <= i < |s| - 1 ensures !(s[i] == '|' && s[i + 1] == '|') {
        BarsAt(s, i);
      }
    }
  }

  /** Text without "||" that does not end in a bar can stand in front of "||". */
  lemma CleanPiece(p: string)
    requires NoBars(p) && (p == "" || p[|p| - 1] != '|')
    ensures Clean(p, "||")
  {
    forall k | 0 <= k < |p| ensures !Occurs(p + "||", "||", k) {
      BarsAt(p + "||", k);
    }
  }

  lemma {:induction false} NoBarsJoin(tokens: seq<string>)
    requires forall i :: 0 <= i < |tokens| ==> NoBars(tokens[i])
    ensures NoBars(Join(tokens, " "))
  {
    if |tokens| > 1 {
      NoBarsJoin(tokens[1..]);
    }
  }

  /* ---- parsing gives good entries ------------------------------------------------ */

  /** Fields are contiguous pieces of the text. */
  lemma {:induction false} FieldWithin(s: string, i: nat) returns (k: nat)
    requires i < |Fields(s)|
    ensures k + |Fields(s)[i]| <= |s| && s[k..k + |Fields(s)[i]|] == Fields(s)[i]
    decreases |s|
  {
    var f := Fields(s)[i];
    if IsSpace(s[0]) {
      var j := FieldWithin(s[1..], i);
      assert s[1..][j..j + |f|] == s[j + 1..j + 1 + |f|];
      k := j + 1;
    } else {
      var n := TokenLength(s);
      if i == 0 {
        k := 0;
      } else {
        assert Fields(s)[i] == Fields(s[n..])[i - 1];
        var j := FieldWithin(s[n..], i - 1);
        assert s[n..][j..j + |f|] == s[n + j..n + j + |f|];
        k := n + j;
      }
    }
  }

  lemma FieldNoBars(s: string, i: nat)
    requires i < |Fields(s)| && NoBars(s)
    ensures NoBars(Fields(s)[i]) && NoSpace(Fields(s)[i])
  {
    var k := FieldWithin(s, i);
    var f := Fields(s)[i];
    assert forall j :: 0 <= j < |f| ==> f[j] == s[k + j];
    assert IsToken(f);
  }

  lemma GoodTail(tok: string, n: nat)
    requires n <= |tok| && NoSpace(tok) && NoBars(tok)
    ensures GoodValue(tok[n..]) && GoodValue(ToLower(tok[n..]))
  {
  }

  lemma {:induction false} RecordsAreGood(tokens: seq<string>, d: DNSAnswerData)
    requires forall i :: 0 <= i < |tokens| ==> NoSpace(tokens[i]) && NoBars(tokens[i])
    requires GoodRecords(d) && WithRecords(tokens, d).Ok?
    ensures GoodRecords(WithRecords(tokens, d).value)
    ensures var r := WithRecords(tokens, d).value; |r.a| + |r.cname| == |d.a| + |d.cname| + |tokens|
  {
    if tokens != [] {
      var tok := tokens[0];
      if HasPrefix(tok, "A=") {
        GoodTail(tok, 2);
        RecordsAreGood(tokens[1..], d.(a := d.a + [tok[2..]]));
      } else {
        GoodTail(tok, 6);
        ToLowerIdempotent(tok[6..]);
        RecordsAreGood(tokens[1..], d.(cname := d.cname + [ToLower(tok[6..])]));
      }
    }
  }

  lemma AnswerIsGood(text: string)
    requires NoBars(text) && ParseAnswer(TrimSpace(text)).Ok?
    ensures GoodAnswer(ParseAnswer(TrimSpace(text)).value)
  {
    FieldsOfTrim(text);
    var tokens := Fields(text);
    forall i | 0 <= i < |tokens| ensures NoSpace(tokens[i]) && NoBars(tokens[i]) {
      FieldNoBars(text, i);
    }
    if !(|tokens| == 1 && IsStatusWord(tokens[0])) {
      RecordsAreGood(tokens, DNSAnswerData("NOERROR", [], []));
    }
  }

  lemma {:induction false} CollectedAreGood(answers: seq<Result<DNSAnswerData, ParseError>>, i: nat)
    requires i <= |answers| && forall k :: 0 <= k < |answers| && answers[k].Ok? ==> GoodAnswer(answers[k].value)
    requires Collected(answers, i).Ok?
    ensures var ds := Collected(answers, i).value;
            |ds| == |answers| - i && forall k :: 0 <= k < |ds| ==> GoodAnswer(ds[k])
    decreases |answers| - i
  {
    if i < |answers| {
      CollectedAreGood(answers, i + 1);
    }
  }

  /** Whatever line parses, parses to a good entry. */
  lemma ParsedIsGood(line: string)
    requires ParseEntry(line).Ok?
    ensures GoodEntry(ParseEntry(line).value)
  {
    var domain := Fields(line)[0];
    FieldFits(line);
    var alts := Split(line[|domain|..], "||");
    var answers := AnswersOf(alts);
    forall k | 0 <= k < |answers| && answers[k].Ok? ensures GoodAnswer(answers[k].value) {
      SplitPieces(line[|domain|..], "||", alts[k]);
      NoBarsIndex(alts[k]);
      AnswerIsGood(alts[k]);
    }
    CollectedAreGood(answers, 0);
  }

  /* ---- parsing undoes printing: one answer ------------------------------------------ */

  function CnameTokens(d: DNSAnswerData, j: nat): seq<string>
    requires j <= |d.cname|
  {
    Prefixed("CNAME=", d.cname)[j..]
  }

  lemma {:induction false} ReadCnames(d: DNSAnswerData, j: nat)
    requires j <= |d.cname|
    requires forall i :: 0 <= i < |d.cname| ==> ToLower(d.cname[i]) == d.cname[i]
    ensures WithRecords(CnameTokens(d, j), d.(cname := d.cname[..j])) == Ok(d)
    decreases |d.cname| - j
  {
    var tokens := CnameTokens(d, j);
    if j == |d.cname| {
      assert tokens == [] && d.cname[..j] == d.cname;
    } else {
      var tok := tokens[0];
      assert tok == "CNAME=" + d.cname[j];
      assert tok[6..] == d.cname[j] && HasPrefix(tok, "CNAME=");
      assert tok[0] == 'C';
      assert !HasPrefix(tok, "A=");
      assert tokens[1..] == CnameTokens(d, j + 1);
      assert d.cname[..j] + [d.cname[j]] == d.cname[..j + 1];
      ReadCnames(d, j + 1);
    }
  }

  lemma {:induction false} ReadRecords(d: DNSAnswerData, i: nat)
    requires i <= |d.a|
    requires forall k :: 0 <= k < |d.cname| ==> ToLower(d.cname[k]) == d.cname[k]
    ensures WithRecords(Records(d)[i..], DNSAnswerData(d.status, d.a[..i], [])) == Ok(d)
    decreases |d.a| - i
  {
    var tokens := Records(d)[i..];
    if i == |d.a| {
      assert tokens == CnameTokens(d, 0) && d.a[..i] == d.a && d.cname[..0] == [];
      ReadCnames(d, 0);
    } else {
      var tok := tokens[0];
      assert tok == "A=" + d.a[i];
      assert tok[2..] == d.a[i] && HasPrefix(tok, "A=");
      assert tokens[1..] == Records(d)[i + 1..];
      assert d.a[..i] + [d.a[i]] == d.a[..i + 1];
      ReadRecords(d, i + 1);
    }
  }

  lemma RecordToken(prefix: string, v: string)
    requires IsToken(prefix) && GoodValue(v) && NoBars(prefix) && prefix[|prefix| - 1] == '='
    ensures IsToken(prefix + v) && NoBars(prefix + v)
  {
  }

  lemma RecordTokens(d: DNSAnswerData)
    requires GoodAnswer(d) && |d.a| + |d.cname| > 0
    ensures forall i :: 0 <= i < |Records(d)| ==> IsToken(Records(d)[i]) && NoBars(Records(d)[i])
    ensures |Records(d)| > 0 && !IsStatusWord(Records(d)[0])
  {
    var tokens := Records(d);
    forall i | 0 <= i < |tokens| ensures IsToken(tokens[i]) && NoBars(tokens[i]) {
      if i < |d.a| { RecordToken("A=", d.a[i]); } else { RecordToken("CNAME=", d.cname[i - |d.a|]); }
    }
    if |d.a| > 0 { NotStatus("A=", d.a[0]); } else { NotStatus("CNAME=", d.cname[0]); }
  }

  lemma NotStatus(prefix: string, v: string)
    requires prefix == "A=" || prefix == "CNAME="
    ensures !IsStatusWord(prefix + v)
  {
    assert (prefix + v)[0] == prefix[0];
  }

  lemma StatusToken(s: string)
    requires IsStatusWord(s)
    ensures IsToken(s) && NoBars(s)
  {
  }

  /** The printed answer, with spaces around it, parses back. */
  lemma AnswerRoundTrip(d: DNSAnswerData, before: string, after: string)
    requires GoodAnswer(d) && AllSpace(before) && AllSpace(after)
    ensures ParseAnswer(TrimSpace(before + PrintAnswer(d) + after)) == Ok(d)
  {
    var text := PrintAnswer(d);
    FieldsOfTrim(before + text + after);
    FieldsBeforeSpace(before + text, after);
    FieldsAfterSpace(before, text);
    if |d.a| == 0 && |d.cname| == 0 {
      StatusToken(d.status);
      FieldsOfJoin([d.status]);
    } else {
      RecordTokens(d);
      FieldsOfJoin(Records(d));
      ReadRecords(d, 0);
      assert Records(d)[0..] == Records(d) && d.a[..0] == [];
    }
  }

  /** A printed answer starts and ends in visible characters and holds no "||". */
  lemma PrintedShape(d: DNSAnswerData)
    requires GoodAnswer(d)
    ensures var text := PrintAnswer(d);
            text != "" && !IsSpace(text[0]) && !IsSpace(text[|text| - 1]) && NoBars(text)
  {
    if |d.a| == 0 && |d.cname| == 0 {
      StatusToken(d.status);
    } else {
      RecordTokens(d);
      NoBarsJoin(Records(d));
      JoinEnds(Records(d));
    }
  }

  lemma {:induction false} JoinEnds(tokens: seq<string>)
    requires |tokens| > 0 && forall i :: 0 <= i < |tokens| ==> IsToken(tokens[i])
    ensures var text := Join(tokens, " ");
            text != "" && !IsSpace(text[0]) && !IsSpace(text[|text| - 1])
  {
    if |tokens| > 1 {
      JoinEnds(tokens[1..]);
    }
  }

  /* ---- parsing undoes printing: one entry --------------------------------------------- */

  /** What Split makes of the remainder of a printed entry. */
  function Pieces(texts: seq<string>): (r: seq<string>)
    ensures |r| == |texts|
    ensures forall i :: 0 <= i < |texts| ==> r[i] == " " + texts[i] + (if i < |texts| - 1 then " " else "")
  {
    seq(|texts|, i requires 0 <= i < |texts| => " " + texts[i] + (if i < |texts| - 1 then " " else ""))
  }

  lemma {:induction false} PiecesJoin(texts: seq<string>)
    requires |texts| >= 1
    ensures Join(Pieces(texts), "||") == " " + Join(texts, " || ")
  {
    if |texts| > 1 {
      PiecesJoin(texts[1..]);
      assert Pieces(texts)[1..] == Pieces(texts[1..]);
      var rest := Join(texts[1..], " || ");
      assert (" " + texts[0] + " ") + "||" + (" " + rest) == " " + (texts[0] + " || " + rest);
    }
  }

  lemma PieceIsClean(text: string)
    requires NoBars(text)
    ensures NoBars(" " + text) && Clean(" " + text + " ", "||")
  {
    assert NoBars(" " + text + " ");
    CleanPiece(" " + text + " ");
  }

  lemma PiecesAreClean(texts: seq<string>)
    requires |texts| >= 1 && forall i :: 0 <= i < |texts| ==> NoBars(texts[i])
    ensures forall i :: 0 <= i < |texts| - 1 ==> Clean(Pieces(texts)[i], "||")
    ensures Index(Pieces(texts)[|texts| - 1], "||") == -1
  {
    forall i | 0 <= i < |texts| - 1 ensures Clean(Pieces(texts)[i], "||") {
      PieceIsClean(texts[i]);
    }
    var n := |texts| - 1;
    PieceIsClean(texts[n]);
    assert Pieces(texts)[n] == " " + texts[n];
    NoBarsIndex(" " + texts[n]);
  }

  lemma PiecesSplit(texts: seq<string>)
    requires |texts| >= 1 && forall i :: 0 <= i < |texts| ==> NoBars(texts[i])
    ensures Split(" " + Join(texts, " || "), "||") == Pieces(texts)
  {
    PiecesJoin(texts);
    PiecesAreClean(texts);
    SplitOfJoin(Pieces(texts), "||");
  }

  lemma PieceParses(ds: seq<DNSAnswerData>, pieces: seq<string>, i: nat)
    requires i < |ds| && GoodAnswer(ds[i])
    requires pieces == Pieces(PrintedAnswers(ds))
    ensures ParseAnswer(TrimSpace(pieces[i])) == Ok(ds[i])
  {
    var after := if i < |ds| - 1 then " " else "";
    assert pieces[i] == " " + PrintAnswer(ds[i]) + after;
    AnswerRoundTrip(ds[i], " ", after);
  }

  lemma {:induction false} CollectAll(answers: seq<Result<DNSAnswerData, ParseError>>, ds: seq<DNSAnswerData>, i: nat)
    requires i <= |ds| == |answers|
    requires forall k :: 0 <= k < |ds| ==> answers[k] == Ok(ds[k])
    ensures Collected(answers, i) == Ok(ds[i..])
    decreases |ds| - i
  {
    if i < |ds| {
      CollectAll(answers, ds, i + 1);
      assert [ds[i]] + ds[i + 1..] == ds[i..];
    }
  }

  lemma PrintedFields(te: TemplateEntry)
    requires GoodEntry(te)
    ensures |Fields(PrintEntry(te))| >= 2 && Fields(PrintEntry(te))[0] == te.domain
    ensures PrintEntry(te)[|te.domain|..] == " " + Join(PrintedAnswers(te.validAnswers), " || ")
  {
    var texts := PrintedAnswers(te.validAnswers);
    var rest := Join(texts, " || ");
    PrintedShape(te.validAnswers[0]);
    assert rest != "" && rest[0] == texts[0][0];
    assert PrintEntry(te) == te.domain + (" " + rest);
    FieldsOfToken(te.domain, " " + rest);
    FieldsAfterSpace(" ", rest);
  }

  /** Printing a good entry and parsing the text gives the entry back. */
  lemma PrintThenParse(te: TemplateEntry)
    requires GoodEntry(te)
    ensures ParseEntry(PrintEntry(te)) == Ok(te)
  {
    PrintedFields(te);
    PrintedAlternatives(te);
  }

  /** The remainder of a printed entry splits into its alternatives, and each parses back. */
  lemma PrintedAlternatives(te: TemplateEntry)
    requires GoodEntry(te)
    ensures var rest := " " + Join(PrintedAnswers(te.validAnswers), " || ");
            Collected(AnswersOf(Split(rest, "||")), 0) == Ok(te.validAnswers)
  {
    var texts := PrintedAnswers(te.validAnswers);
    forall i | 0 <= i < |texts| ensures NoBars(texts[i]) {
      PrintedShape(te.validAnswers[i]);
    }
    PiecesSplit(texts);
    var answers := AnswersOf(Pieces(texts));
    forall k | 0 <= k < |te.validAnswers| ensures answers[k] == Ok(te.validAnswers[k]) {
      PieceParses(te.validAnswers, Pieces(texts), k);
    }
    CollectAll(answers, te.validAnswers, 0);
    assert te.validAnswers[0..] == te.validAnswers;
  }

  /** The round trip: any line that parses, printed and parsed again, gives the same
      entry. So printing is a normal form, and printing what was parsed twice is
      printing it once. */
  lemma ParsePrintParse(line: string)
    requires ParseEntry(line).Ok?
    ensures var te := ParseEntry(line).value;
            ParseEntry(PrintEntry(te)) == Ok(te)
  {
    ParsedIsGood(line);
    PrintThenParse(ParseEntry(line).value);
  }

  /** The good entries are exactly what the parser can return. */
  lemma GoodIsParsed(te: TemplateEntry)
    ensures GoodEntry(te) <==> exists line :: ParseEntry(line) == Ok(te)
  {
    if GoodEntry(te) {
      PrintThenParse(te);
    }
    if line :| ParseEntry(line) == Ok(te) {
      ParsedIsGood(line);
    }
  }

  /** Different good entries print differently. */
  lemma PrintIsInjective(a: TemplateEntry, b: TemplateEntry)
    requires GoodEntry(a) && GoodEntry(b) && PrintEntry(a) == PrintEntry(b)
    ensures a == b
  {
    PrintThenParse(a);
    PrintThenParse(b);
  }
}
