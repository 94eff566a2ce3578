/** `sentences(content_item)`: the older reader of OWPL named-entity
    tagging. The tagging text is read line by line; `<SENT id="N">` lines
    end the sentence collected so far, `</SENT` lines are ignored, and every
    other non-empty line is one token of nine tab-separated fields. */
module OwplTagging {
  import opened Common

  /** The `Token` fields `make_token` fills in. */
  datatype Token = Token(
    tokenNumber: int,
    sentenceNumber: int,
    sentencePosition: int,
    token: string,
    startByte: int,
    endByte: int,
    pos: string,
    entityType: string,
    lemmaText: string,
    dependencyPath: string,
    parentId: string,
    equivalenceId: int)

  /** The exceptions the parser raises: a line without nine fields
      (ValueError on unpacking), a field `int` rejects (ValueError), a
      'b:e' field without ':' (IndexError), and a `<SENT` line the
      `<SENT id="N">` pattern does not match (AttributeError on None). */
  datatype TagError = FieldCount(found: nat) | NotAnInt(text: string) | NoEndByte | NoSentenceId(line: string)

  // ---------------------------------------------------------------------
  // make_token
  // ---------------------------------------------------------------------

  function ParseField(s: string): (r: Result<int, TagError>)
    ensures r.Ok? <==> ParseInt(s).Some?
    ensures r.Ok? ==> Some(r.value) == ParseInt(s)
    ensures r.Err? ==> r.error == NotAnInt(s)
  {
    match ParseInt(s)
    case None => Err(NotAnInt(s))
    case Some(v) => Ok(v)
  }

  /** `make_token(line)` while the counters stand at `tokNum` and `sentNum`. */
  function MakeToken(line: string, tokNum: int, sentNum: int): (r: Result<Token, TagError>)
    ensures |Split(line, '\t')| != 9 ==> r == Err(FieldCount(|Split(line, '\t')|))
    ensures r.Ok? ==> r.value.tokenNumber == tokNum && r.value.sentenceNumber == sentNum
    ensures r.Ok? ==>
              var f := Split(line, '\t');
              |f| == 9 && r.value.token == f[1] && r.value.pos == f[3] && r.value.entityType == f[4] &&
              r.value.lemmaText == f[5] && r.value.dependencyPath == f[6] && r.value.parentId == f[7] &&
              ParseInt(f[0]) == Some(r.value.sentencePosition) && ParseInt(f[8]) == Some(r.value.equivalenceId)
  {
    var f := Split(line, '\t');
    if |f| != 9 then Err(FieldCount(|f|))
    else
      var be := Split(f[2], ':');
      match ParseField(f[0])
      case Err(e) => Err(e)
      case Ok(sp) =>
        match ParseField(be[0])
        case Err(e) => Err(e)
        case Ok(b) =>
          if |be| < 2 then Err(NoEndByte)
          else
            match ParseField(be[1])
            case Err(e) => Err(e)
            case Ok(en) =>
              match ParseField(f[8])
              case Err(e) => Err(e)
              case Ok(eq) => Ok(Token(tokNum, sentNum, sp, f[1], b, en, f[3], f[4], f[5], f[6], f[7], eq))
  }

  /** The 'b:e' field of a token line. */
  function Offsets(t: Token): string
  {
    IntToString(t.startByte) + ":" + IntToString(t.endByte)
  }

  /** The OWPL line a token is read from. */
  function TokenLine(t: Token): string
  {
    Join([IntToString(t.sentencePosition), t.token, Offsets(t), t.pos, t.entityType,
          t.lemmaText, t.dependencyPath, t.parentId, IntToString(t.equivalenceId)], '\t')
  }

  predicate TabFree(t: Token)
  {
    '\t' !in t.token && '\t' !in t.pos && '\t' !in t.entityType && '\t' !in t.lemmaText &&
    '\t' !in t.dependencyPath && '\t' !in t.parentId
  }

  /** A rendered integer holds only digits and a leading '-'. */
  lemma IntStringPlain(i: int)
    ensures '\t' !in IntToString(i) && ':' !in IntToString(i)
  {
    var n := NatToString(if i < 0 then -i else i);
    assert AllDigits(n);
    if i < 0 {
      assert IntToString(i) == "-" + n;
      assert forall j :: 0 <= j < |IntToString(i)| ==> IntToString(i)[j] == '-' || IsDigit(IntToString(i)[j]);
    }
  }

  /** The 'b:e' field reads back as its two offsets. */
  lemma OffsetsRoundTrip(t: Token)
    ensures var be := Split(Offsets(t), ':');
            |be| == 2 && ParseInt(be[0]) == Some(t.startByte) && ParseInt(be[1]) == Some(t.endByte)
  {
    var b, e := IntToString(t.startByte), IntToString(t.endByte);
    IntStringPlain(t.startByte);
    IntStringPlain(t.endByte);
    assert [b, e][1..] == [e];
    assert Join([b, e], ':') == Offsets(t);
    SplitJoin([b, e], ':');
    ParseIntOfString(t.startByte);
    ParseIntOfString(t.endByte);
  }

  lemma TokenFields(t: Token)
    requires TabFree(t)
    ensures var f := Split(TokenLine(t), '\t');
            |f| == 9 && f[0] == IntToString(t.sentencePosition) && f[1] == t.token && f[2] == Offsets(t) &&
            f[3] == t.pos && f[4] == t.entityType && f[5] == t.lemmaText && f[6] == t.dependencyPath &&
            f[7] == t.parentId && f[8] == IntToString(t.equivalenceId)
  {
    IntStringPlain(t.sentencePosition);
    IntStringPlain(t.equivalenceId);
    IntStringPlain(t.startByte);
    IntStringPlain(t.endByte);
    assert '\t' !in Offsets(t);
    var f := [IntToString(t.sentencePosition), t.token, Offsets(t), t.pos, t.entityType,
              t.lemmaText, t.dependencyPath, t.parentId, IntToString(t.equivalenceId)];
    assert forall i :: 0 <= i < |f| ==> '\t' !in f[i];
    SplitJoin(f, '\t');
  }

  /** A line whose nine fields all read is made into the token of those fields. */
  lemma MakeTokenOk(line: string, tn: int, sn: int, sp: int, b: int, e: int, eq: int)
    requires var f := Split(line, '\t');
             |f| == 9 && ParseInt(f[0]) == Some(sp) && ParseInt(f[8]) == Some(eq) &&
             var be := Split(f[2], ':');
             |be| >= 2 && ParseInt(be[0]) == Some(b) && ParseInt(be[1]) == Some(e)
    ensures var f := Split(line, '\t');
            MakeToken(line, tn, sn) == Ok(Token(tn, sn, sp, f[1], b, e, f[3], f[4], f[5], f[6], f[7], eq))
  {
  }

  /** Reading a token's own line under its own counters gives the token back. */
  lemma TokenRoundTrip(t: Token)
    requires TabFree(t)
    ensures MakeToken(TokenLine(t), t.tokenNumber, t.sentenceNumber) == Ok(t)
  {
    TokenFields(t);
    OffsetsRoundTrip(t);
    ParseIntOfString(t.sentencePosition);
    ParseIntOfString(t.equivalenceId);
    MakeTokenOk(TokenLine(t), t.tokenNumber, t.sentenceNumber, t.sentencePosition, t.startByte, t.endByte, t.equivalenceId);
  }

  // ---------------------------------------------------------------------
  // str.splitlines
  // ---------------------------------------------------------------------

  predicate IsBreak(c: char)
  {
    c == '\n' || c == '\r'
  }

  predicate NoBreak(l: string)
  {
    forall i :: 0 <= i < |l| ==> !IsBreak(l[i])
  }

  /** Where the first line of `s` ends. */
  function LineEnd(s: string): (k: nat)
    ensures k <= |s| && (k < |s| ==> IsBreak(s[k])) && NoBreak(s[..k])
  {
    if s == [] || IsBreak(s[0]) then 0
    else
      var k := 1 + LineEnd(s[1..]);
      assert forall i :: 1 <= i < k ==> s[..k][i] == s[1..][..k - 1][i - 1];
      k
  }

  /** `str.splitlines()`: lines end at '\n', '\r' or "\r\n", and a final
      line needs no terminator. */
  function SplitLines(s: string): (r: seq<string>)
    ensures forall i :: 0 <= i < |r| ==> NoBreak(r[i])
    decreases |s|
  {
    if s == [] then []
    else
      var k := LineEnd(s);
      if k == |s| then [s]
      else
        var next := if s[k] == '\r' && k + 1 < |s| && s[k + 1] == '\n' then k + 2 else k + 1;
        [s[..k]] + SplitLines(s[next..])
  }

  /** Lines, each followed by '\n'. */
  function Terminated(lines: seq<string>): string
  {
    if lines == [] then [] else lines[0] + "\n" + Terminated(lines[1..])
  }

  lemma LineEndOf(l: string, rest: string)
    requires NoBreak(l)
    ensures LineEnd(l + "\n" + rest) == |l|
    decreases |l|
  {
    if l != [] {
      assert (l + "\n" + rest)[1..] == l[1..] + "\n" + rest;
      LineEndOf(l[1..], rest);
    }
  }

  /** `splitlines` gives back lines that were each written with a '\n'. */
  lemma {:induction false} SplitTerminated(lines: seq<string>)
    requires forall i :: 0 <= i < |lines| ==> NoBreak(lines[i])
    ensures SplitLines(Terminated(lines)) == lines
    decreases |lines|
  {
    if lines != [] {
      var l := lines[0];
      var rest := Terminated(lines[1..]);
      var s := l + "\n" + rest;
      LineEndOf(l, rest);
      assert s[..|l|] == l && s[|l|] == '\n' && s[|l| + 1..] == rest;
      SplitTerminated(lines[1..]);
    }
  }

  // ---------------------------------------------------------------------
  // Sentence markers
  // ---------------------------------------------------------------------

  const SentOpen := "<SENT"
  const SentClose := "</SENT"
  const SentIdOpen := "<SENT id=\""
  const SentIdClose := "\">"

  /** How many decimal digits `s` starts with. */
  function LeadingDigits(s: string): (n: nat)
    ensures n <= |s| && AllDigits(s[..n]) && (n < |s| ==> !IsDigit(s[n]))
  {
    if s == [] || !IsDigit(s[0]) then 0
    else
      var n := 1 + LeadingDigits(s[1..]);
      assert forall i :: 1 <= i < n ==> s[..n][i] == s[1..][..n - 1][i - 1];
      n
  }

  /** `int(sent_num_re.match(line).group(1))`: the pattern must match at the
      start of the line; None where `match` returns None. */
  function SentId(line: string): (r: Option<nat>)
    ensures r.Some? ==> StartsWith(line, SentIdOpen)
  {
    if !StartsWith(line, SentIdOpen) then None
    else
      var rest := line[|SentIdOpen|..];
      var n := LeadingDigits(rest);
      if n >= 1 && StartsWith(rest[n..], SentIdClose) then Some(DigitsValue(rest[..n])) else None
  }

  lemma LeadingDigitsOf(d: string, rest: string)
    requires AllDigits(d) && (rest != [] ==> !IsDigit(rest[0]))
    ensures LeadingDigits(d + rest) == |d|
    decreases |d|
  {
    if d != [] {
      assert (d + rest)[1..] == d[1..] + rest;
      LeadingDigitsOf(d[1..], rest);
    } else {
      assert d + rest == rest;
    }
  }

  /** A `<SENT id="N">` line gives back N. */
  lemma SentIdOf(n: nat, rest: string)
    ensures SentId(SentIdOpen + NatToString(n) + SentIdClose + rest) == Some(n)
  {
    var d := NatToString(n);
    var tail := SentIdClose + rest;
    var line := SentIdOpen + d + SentIdClose + rest;
    assert line == SentIdOpen + (d + tail);
    assert line[|SentIdOpen|..] == d + tail;
    assert StartsWith(line, SentIdOpen);
    LeadingDigitsOf(d, tail);
    assert (d + tail)[|d|..] == tail && (d + tail)[..|d|] == d;
    DigitsValueOfNat(n);
  }

  // ---------------------------------------------------------------------
  // Grouping the lines into sentences
  // ---------------------------------------------------------------------

  predicate IsMarker(l: string)
  {
    StartsWith(l, SentOpen)
  }

  /** A line that becomes a token. */
  predicate IsTokenLine(l: string)
  {
    l != "" && !StartsWith(l, SentOpen) && !StartsWith(l, SentClose)
  }

  /** The token lines of one sentence and the counters when it is emitted. */
  datatype Group = Group(lines: seq<string>, sentNum: int, tokNum: nat)

  /** The sentences in order, and the `<SENT` line that stopped the loop, if any. */
  datatype Grouping = Grouping(groups: seq<Group>, badMarker: Option<string>)

  /** The loop over the lines from a given state of `sent_num`, `tok_num`
      and `this_sentence`. */
  function Groups(lines: seq<string>, sn: int, tn: nat, cur: seq<string>): Grouping
    decreases |lines|
  {
    if lines == [] then Grouping(if cur == [] then [] else [Group(cur, sn, tn)], None)
    else
      var l := lines[0];
      if l == "" then Groups(lines[1..], sn, tn, cur)
      else if StartsWith(l, SentOpen) then
        var g := Group(cur, sn, tn);
        match SentId(l)
        case None => Grouping([g], Some(l))
        case Some(n) =>
          var rest := Groups(lines[1..], n, tn, []);
          Grouping([g] + rest.groups, rest.badMarker)
      else if StartsWith(l, SentClose) then Groups(lines[1..], sn, tn, cur)
      else Groups(lines[1..], sn, tn + 1, cur + [l])
  }

  function TokenLines(lines: seq<string>): seq<string>
  {
    if lines == [] then [] else (if IsTokenLine(lines[0]) then [lines[0]] else []) + TokenLines(lines[1..])
  }

  function MarkerCount(lines: seq<string>): nat
  {
    if lines == [] then 0 else (if IsMarker(lines[0]) then 1 else 0) + MarkerCount(lines[1..])
  }

  /** The token lines after the last marker, following `cur`. */
  function Trailing(lines: seq<string>, cur: seq<string>): seq<string>
  {
    if lines == [] then cur
    else if IsMarker(lines[0]) then Trailing(lines[1..], [])
    else Trailing(lines[1..], cur + (if IsTokenLine(lines[0]) then [lines[0]] else []))
  }

  function LinesOf(gs: seq<Group>): seq<seq<string>>
    ensures |LinesOf(gs)| == |gs|
  {
    if gs == [] then [] else [gs[0].lines] + LinesOf(gs[1..])
  }

  lemma {:induction false} LinesOfPrefix(gs: seq<Group>, k: nat)
    requires k < |gs|
    ensures LinesOf(gs[..k + 1]) == LinesOf(gs[..k]) + [gs[k].lines]
    decreases k
  {
    if k > 0 {
      assert gs[..k + 1][1..] == gs[1..][..k] && gs[..k][1..] == gs[1..][..k - 1];
      LinesOfPrefix(gs[1..], k - 1);
    } else {
      assert gs[..1] == [gs[0]] && gs[..0] == [];
    }
  }

  /** A blank line changes nothing, wherever it stands. */
  lemma {:induction false} GroupsSkipBlank(a: seq<string>, b: seq<string>, sn: int, tn: nat, cur: seq<string>)
    ensures Groups(a + [""] + b, sn, tn, cur) == Groups(a + b, sn, tn, cur)
    decreases |a|
  {
    if a == [] {
      assert a + [""] + b == [""] + b && ([""] + b)[1..] == b && a + b == b;
    } else {
      var l := a[0];
      assert (a + [""] + b)[0] == l && (a + [""] + b)[1..] == a[1..] + [""] + b;
      assert (a + b)[0] == l && (a + b)[1..] == a[1..] + b;
      if l == "" || (!StartsWith(l, SentOpen) && StartsWith(l, SentClose)) {
        GroupsSkipBlank(a[1..], b, sn, tn, cur);
      } else if StartsWith(l, SentOpen) {
        if SentId(l).Some? {
          GroupsSkipBlank(a[1..], b, SentId(l).value, tn, []);
        }
      } else {
        GroupsSkipBlank(a[1..], b, sn, tn + 1, cur + [l]);
      }
    }
  }

  /** No token line is lost, duplicated or reordered: the sentences, read
      one after the other, are exactly the token lines of the input. */
  lemma {:induction false} GroupsKeepTokens(lines: seq<string>, sn: int, tn: nat, cur: seq<string>)
    ensures var g := Groups(lines, sn, tn, cur);
            g.badMarker.None? ==> Flatten(LinesOf(g.groups)) == cur + TokenLines(lines)
    decreases |lines|
  {
    var g := Groups(lines, sn, tn, cur);
    if lines == [] {
      if cur != [] {
        assert LinesOf(g.groups) == [cur];
        assert Flatten([cur]) == cur + [];
      }
    } else {
      var l := lines[0];
      if l == "" || (!StartsWith(l, SentOpen) && StartsWith(l, SentClose)) {
        GroupsKeepTokens(lines[1..], sn, tn, cur);
      } else if StartsWith(l, SentOpen) {
        if SentId(l).Some? {
          var rest := Groups(lines[1..], SentId(l).value, tn, []);
          GroupsKeepTokens(lines[1..], SentId(l).value, tn, []);
          assert g.groups == [Group(cur, sn, tn)] + rest.groups;
          assert LinesOf(g.groups) == [cur] + LinesOf(rest.groups);
          assert Flatten(LinesOf(g.groups)) == cur + Flatten(LinesOf(rest.groups));
        }
      } else {
        GroupsKeepTokens(lines[1..], sn, tn + 1, cur + [l]);
      }
    }
  }

  /** Every marker ends a sentence, even an empty one, and a non-empty
      remainder after the last marker makes one more. */
  lemma {:induction false} GroupsCount(lines: seq<string>, sn: int, tn: nat, cur: seq<string>)
    ensures var g := Groups(lines, sn, tn, cur);
            g.badMarker.None? ==> |g.groups| == MarkerCount(lines) + (if Trailing(lines, cur) == [] then 0 else 1)
    decreases |lines|
  {
    if lines != [] {
      var l := lines[0];
      if l == "" || (!StartsWith(l, SentOpen) && StartsWith(l, SentClose)) {
        GroupsCount(lines[1..], sn, tn, cur);
        assert cur + [] == cur;
      } else if StartsWith(l, SentOpen) {
        if SentId(l).Some? {
          GroupsCount(lines[1..], SentId(l).value, tn, []);
        }
      } else {
        GroupsCount(lines[1..], sn, tn + 1, cur + [l]);
      }
    }
  }

  /** `tok_num` when a sentence is emitted counts every token line up to
      and including that sentence's own. */
  lemma {:induction false} GroupsNumbering(lines: seq<string>, sn: int, tn: nat, cur: seq<string>, k: nat)
    requires k < |Groups(lines, sn, tn, cur).groups|
    ensures var gs := Groups(lines, sn, tn, cur).groups;
            gs[k].tokNum == tn - |cur| + |Flatten(LinesOf(gs[..k + 1]))|
    decreases |lines|
  {
    var gs := Groups(lines, sn, tn, cur).groups;
    if lines == [] {
      assert gs[..1] == [Group(cur, sn, tn)];
      assert Flatten(LinesOf(gs[..1])) == cur + [];
    } else {
      var l := lines[0];
      if l == "" || (!StartsWith(l, SentOpen) && StartsWith(l, SentClose)) {
        GroupsNumbering(lines[1..], sn, tn, cur, k);
      } else if StartsWith(l, SentOpen) {
        var g := Group(cur, sn, tn);
        if k == 0 {
          assert gs[..1] == [g];
          assert Flatten(LinesOf(gs[..1])) == cur + [];
        } else {
          var n := SentId(l).value;
          var rest := Groups(lines[1..], n, tn, []).groups;
          assert gs == [g] + rest;
          GroupsNumbering(lines[1..], n, tn, [], k - 1);
          assert gs[..k + 1] == [g] + rest[..k];
          assert gs[..k + 1][1..] == rest[..k];
          assert LinesOf(gs[..k + 1]) == [cur] + LinesOf(rest[..k]);
          assert Flatten(LinesOf(gs[..k + 1])) == cur + Flatten(LinesOf(rest[..k]));
        }
      } else {
        GroupsNumbering(lines[1..], sn, tn + 1, cur + [l], k);
      }
    }
  }

  /** The first sentence carries the starting `sent_num`. */
  lemma {:induction false} GroupsFirstNumber(lines: seq<string>, sn: int, tn: nat, cur: seq<string>)
    requires |Groups(lines, sn, tn, cur).groups| > 0
    ensures Groups(lines, sn, tn, cur).groups[0].sentNum == sn
    decreases |lines|
  {
    if lines != [] {
      var l := lines[0];
      if l == "" || (!StartsWith(l, SentOpen) && StartsWith(l, SentClose)) {
        GroupsFirstNumber(lines[1..], sn, tn, cur);
      } else if !StartsWith(l, SentOpen) {
        GroupsFirstNumber(lines[1..], sn, tn + 1, cur + [l]);
      }
    }
  }

  // ---------------------------------------------------------------------
  // Emitting the sentences
  // ---------------------------------------------------------------------

  /** `map(make_token, lines)` under fixed counters: the first failing line raises. */
  function MakeTokens(lines: seq<string>, tn: int, sn: int): (r: Result<seq<Token>, TagError>)
    ensures r.Ok? ==> |r.value| == |lines|
    ensures r.Ok? ==> forall j :: 0 <= j < |lines| ==> MakeToken(lines[j], tn, sn) == Ok(r.value[j])
  {
    if lines == [] then Ok([])
    else
      match MakeToken(lines[0], tn, sn)
      case Err(e) => Err(e)
      case Ok(t) =>
        match MakeTokens(lines[1..], tn, sn)
        case Err(e) => Err(e)
        case Ok(ts) =>
          assert forall j :: 1 <= j < |lines| ==> lines[j] == lines[1..][j - 1];
          Ok([t] + ts)
  }

  /** The sentence fails exactly when one of its lines does, with the
      error of the first such line. */
  lemma {:induction false} MakeTokensFails(lines: seq<string>, tn: int, sn: int, j: nat)
    requires j < |lines| && MakeToken(lines[j], tn, sn).Err?
    requires forall i :: 0 <= i < j ==> MakeToken(lines[i], tn, sn).Ok?
    ensures MakeTokens(lines, tn, sn) == Err(MakeToken(lines[j], tn, sn).error)
    decreases j
  {
    if j > 0 {
      var rest := lines[1..];
      assert MakeToken(lines[0], tn, sn).Ok?;
      assert rest[j - 1] == lines[j];
      assert forall i :: 0 <= i < j - 1 ==> rest[i] == lines[i + 1];
      MakeTokensFails(rest, tn, sn, j - 1);
      assert MakeTokens(lines, tn, sn) == MakeTokens(rest, tn, sn);
    }
  }

  /** The tokens of one emitted sentence. They all share the counters of the
      moment of emission: `make_token` reads `tok_num` and `sent_num` when
      the sentence is yielded, not when the line was seen. */
  function MakeSentence(g: Group): (r: Result<seq<Token>, TagError>)
    ensures r.Ok? ==> |r.value| == |g.lines|
    ensures r.Ok? ==> forall j :: 0 <= j < |r.value| ==>
                        r.value[j].tokenNumber == g.tokNum && r.value[j].sentenceNumber == g.sentNum
  {
    MakeTokens(g.lines, g.tokNum, g.sentNum)
  }

  /** What the generator has yielded, and the exception that ended it. */
  datatype Tagged = Tagged(sentences: seq<seq<Token>>, error: Option<TagError>)

  function Emit(gs: seq<Group>, bad: Option<string>): Tagged
  {
    if gs == [] then Tagged([], if bad.Some? then Some(NoSentenceId(bad.value)) else None)
    else
      match MakeSentence(gs[0])
      case Err(e) => Tagged([], Some(e))
      case Ok(s) =>
        var t := Emit(gs[1..], bad);
        Tagged([s] + t.sentences, t.error)
  }

  /** Everything `sentences` yields for a tagging text. */
  function Tagging(ner: string): Tagged
  {
    var g := Groups(SplitLines(ner), 0, 0, []);
    Emit(g.groups, g.badMarker)
  }

  /** With no failure, sentence k is made from group k. */
  lemma {:induction false} EmitAll(gs: seq<Group>)
    requires forall k :: 0 <= k < |gs| ==> MakeSentence(gs[k]).Ok?
    ensures var t := Emit(gs, None);
            t.error.None? && |t.sentences| == |gs| &&
            forall k :: 0 <= k < |gs| ==> t.sentences[k] == MakeSentence(gs[k]).value
  {
    if gs != [] {
      assert forall k :: 1 <= k < |gs| ==> gs[1..][k - 1] == gs[k];
      EmitAll(gs[1..]);
    }
  }

  /** Every token of sentence k of a document carries the id of the
      `<SENT>` marker before it (0 before the first marker) and the number
      of token lines up to the end of that sentence. */
  lemma SharedCounters(ner: string, k: nat)
    requires Groups(SplitLines(ner), 0, 0, []).badMarker.None?
    requires var gs := Groups(SplitLines(ner), 0, 0, []).groups;
             forall i :: 0 <= i < |gs| ==> MakeSentence(gs[i]).Ok?
    requires k < |Groups(SplitLines(ner), 0, 0, []).groups|
    ensures var gs := Groups(SplitLines(ner), 0, 0, []).groups;
            var t := Tagging(ner);
            t.error.None? && |t.sentences| == |gs| &&
            (forall j :: 0 <= j < |t.sentences[k]| ==>
               t.sentences[k][j].tokenNumber == |Flatten(LinesOf(gs[..k + 1]))| &&
               t.sentences[k][j].sentenceNumber == gs[k].sentNum) &&
            (k == 0 ==> gs[k].sentNum == 0)
  {
    var g := Groups(SplitLines(ner), 0, 0, []);
    EmitAll(g.groups);
    GroupsNumbering(SplitLines(ner), 0, 0, [], k);
    if k == 0 {
      GroupsFirstNumber(SplitLines(ner), 0, 0, []);
    }
  }

  /** `Emit` on a first group. */
  lemma EmitCons(g: Group, gs: seq<Group>, bad: Option<string>)
    ensures var s := MakeSentence(g);
            var t := Emit(gs, bad);
            Emit([g] + gs, bad) == if s.Err? then Tagged([], Some(s.error)) else Tagged([s.value] + t.sentences, t.error)
  {
    assert ([g] + gs)[0] == g && ([g] + gs)[1..] == gs;
  }

  /** `Groups` on a `<SENT` line. */
  lemma GroupsAtMarker(lines: seq<string>, sn: int, tn: nat, cur: seq<string>)
    requires lines != [] && lines[0] != "" && StartsWith(lines[0], SentOpen)
    ensures var g := Group(cur, sn, tn);
            var id := SentId(lines[0]);
            Groups(lines, sn, tn, cur) ==
              if id.None? then Grouping([g] + [], Some(lines[0]))
              else Grouping([g] + Groups(lines[1..], id.value, tn, []).groups, Groups(lines[1..], id.value, tn, []).badMarker)
  {
    assert [Group(cur, sn, tn)] + [] == [Group(cur, sn, tn)];
  }

  /** A `<SENT` line whose sentence cannot be made ends the loop with that error. */
  lemma MarkerFails(done: seq<seq<Token>>, lines: seq<string>, sn: int, tn: nat, cur: seq<string>)
    requires lines != [] && lines[0] != "" && StartsWith(lines[0], SentOpen)
    requires MakeSentence(Group(cur, sn, tn)).Err?
    ensures Prefixed(done, Groups(lines, sn, tn, cur)) == Tagged(done, Some(MakeSentence(Group(cur, sn, tn)).error))
  {
    var g := Group(cur, sn, tn);
    GroupsAtMarker(lines, sn, tn, cur);
    var gr := Groups(lines, sn, tn, cur);
    assert gr.groups[0] == g;
    assert Emit(gr.groups, gr.badMarker) == Tagged([], Some(MakeSentence(g).error));
    assert done + [] == done;
  }

  /** A `<SENT` line without an id yields the sentence so far, then raises. */
  lemma MarkerWithoutId(done: seq<seq<Token>>, lines: seq<string>, sn: int, tn: nat, cur: seq<string>)
    requires lines != [] && lines[0] != "" && StartsWith(lines[0], SentOpen)
    requires MakeSentence(Group(cur, sn, tn)).Ok? && SentId(lines[0]).None?
    ensures Prefixed(done, Groups(lines, sn, tn, cur)) ==
            Tagged(done + [MakeSentence(Group(cur, sn, tn)).value], Some(NoSentenceId(lines[0])))
  {
    var g := Group(cur, sn, tn);
    GroupsAtMarker(lines, sn, tn, cur);
    EmitCons(g, [], Some(lines[0]));
    assert [MakeSentence(g).value] + [] == [MakeSentence(g).value];
  }

  /** A `<SENT id="N">` line yields the sentence so far and starts sentence N. */
  lemma MarkerWithId(done: seq<seq<Token>>, lines: seq<string>, sn: int, tn: nat, cur: seq<string>)
    requires lines != [] && lines[0] != "" && StartsWith(lines[0], SentOpen)
    requires MakeSentence(Group(cur, sn, tn)).Ok? && SentId(lines[0]).Some?
    ensures Prefixed(done, Groups(lines, sn, tn, cur)) ==
            Prefixed(done + [MakeSentence(Group(cur, sn, tn)).value], Groups(lines[1..], SentId(lines[0]).value, tn, []))
  {
    var g := Group(cur, sn, tn);
    GroupsAtMarker(lines, sn, tn, cur);
    var rest := Groups(lines[1..], SentId(lines[0]).value, tn, []);
    EmitCons(g, rest.groups, rest.badMarker);
    var t := Emit(rest.groups, rest.badMarker);
    assert done + ([MakeSentence(g).value] + t.sentences) == done + [MakeSentence(g).value] + t.sentences;
  }

  /** The end of the lines: a non-empty remainder is yielded. */
  lemma EndStep(done: seq<seq<Token>>, sn: int, tn: nat, cur: seq<string>)
    ensures var s := MakeSentence(Group(cur, sn, tn));
            var p := Prefixed(done, Groups([], sn, tn, cur));
            (cur == [] ==> p == Tagged(done, None)) &&
            (cur != [] && s.Err? ==> p == Tagged(done, Some(s.error))) &&
            (cur != [] && s.Ok? ==> p == Tagged(done + [s.value], None))
  {
    assert done + [] == done;
    EmitCons(Group(cur, sn, tn), [], None);
    assert [Group(cur, sn, tn)] + [] == [Group(cur, sn, tn)];
  }

  /** `sentences(content_item)` over `content_item.ner`. */
  method Sentences(ner: string) returns (sentences: seq<seq<Token>>, error: Option<TagError>)
    ensures Tagged(sentences, error) == Tagging(ner)
  {
    var lines := SplitLines(ner);
    var sentNum := 0;
    var tokNum := 0;
    var current: seq<string> := [];
    sentences := [];
    var i := 0;
    while i < |lines|
      invariant 0 <= i <= |lines|
      invariant Tagging(ner) == Prefixed(sentences, Groups(lines[i..], sentNum, tokNum, current))
    {
      var line := lines[i];
      assert lines[i..][0] == line && lines[i..][1..] == lines[i + 1..];
      if line == "" {
        i := i + 1;
        continue;
      }
      if StartsWith(line, SentOpen) {
        var s := MakeSentence(Group(current, sentNum, tokNum));
        if s.Err? {
          MarkerFails(sentences, lines[i..], sentNum, tokNum, current);
          return sentences, Some(s.error);
        }
        var id := SentId(line);
        if id.None? {
          MarkerWithoutId(sentences, lines[i..], sentNum, tokNum, current);
          return sentences + [s.value], Some(NoSentenceId(line));
        }
        MarkerWithId(sentences, lines[i..], sentNum, tokNum, current);
        sentences := sentences + [s.value];
        sentNum := id.value;
        current := [];
      } else if !StartsWith(line, SentClose) {
        current := current + [line];
        tokNum := tokNum + 1;
      }
      i := i + 1;
    }
    EndStep(sentences, sentNum, tokNum, current);
    if current != [] {
      var s := MakeSentence(Group(current, sentNum, tokNum));
      if s.Err? {
        return sentences, Some(s.error);
      }
      sentences := sentences + [s.value];
    }
    error := None;
  }

  /** The sentences already yielded, followed by what the rest of the loop yields. */
  function Prefixed(done: seq<seq<Token>>, g: Grouping): Tagged
  {
    var t := Emit(g.groups, g.badMarker);
    Tagged(done + t.sentences, t.error)
  }
}
