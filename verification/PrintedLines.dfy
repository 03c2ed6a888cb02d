/**
 What the readers of APT's lines read: a line is read as a change, a removal or a summary exactly when it is that
 change, removal or summary printed, so the fields that reach a plan are the whole fields of the line.
 */
module PrintedLines {
  import opened Models
  import opened NativeSnapshots
  import opened Attempts
  import opened Sequences
  import opened Inventories
  import opened Simulations
  import opened Removals

  // ----- runs of characters

  predicate Only(s: string, accepts: char -> bool) { forall i | 0 <= i < |s| :: accepts(s[i]) }

  predicate StopsAt(rest: string, accepts: char -> bool) { rest == "" || !accepts(rest[0]) }

  lemma OnlyFirst(c: char, rest: string, accepts: char -> bool)
    ensures Only([c] + rest, accepts) <==> accepts(c) && Only(rest, accepts)
  {
    var s := [c] + rest;
    assert s[0] == c && forall i | 0 <= i < |rest| :: rest[i] == s[i + 1];
  }

  lemma {:induction false} SpanExactly(s: string, accepts: char -> bool, n: nat)
    requires n <= |s|
    ensures Span(s, accepts) == n <==> Only(s[..n], accepts) && StopsAt(s[n..], accepts)
  {
    if s == "" {
    } else if !accepts(s[0]) {
      assert n > 0 ==> s[..n][0] == s[0];
    } else if n > 0 {
      SpanExactly(s[1..], accepts, n - 1);
      assert s[1..][n - 1..] == s[n..] && s[..n] == [s[0]] + s[1..][..n - 1];
      OnlyFirst(s[0], s[1..][..n - 1], accepts);
    }
  }

  /** A run is taken exactly when it is not empty and what follows it cannot belong to it. */
  lemma TakeExactly(s: string, accepts: char -> bool, run: string, rest: string)
    ensures Take(s, accepts) == Some((run, rest)) <==>
      s == run + rest && run != "" && Only(run, accepts) && StopsAt(rest, accepts)
  {
    if s == run + rest {
      assert s[..|run|] == run && s[|run|..] == rest;
      SpanExactly(s, accepts, |run|);
    }
    var n := Span(s, accepts);
    SpanExactly(s, accepts, n);
    assert s == s[..n] + s[n..];
  }

  lemma SkipExactly(s: string, literal: string, rest: string)
    ensures Skip(s, literal) == Some(rest) <==> s == literal + rest
  {
    if literal <= s {
      assert s == literal + s[|literal|..];
    }
    if s == literal + rest {
      assert literal <= s && s[|literal|..] == rest;
    }
  }

  // ----- trailing groups

  predicate GroupsOk(groups: seq<string>) { forall g | g in groups :: Only(g, GROUP_CHAR) }

  /** Bracketed groups as they are printed one after the other. */
  function GroupText(groups: seq<string>): string {
    if groups == [] then "" else " [" + groups[0] + "]" + GroupText(groups[1..])
  }

  ghost predicate Grouped(s: string) { exists groups :: GroupsOk(groups) && s == GroupText(groups) }

  lemma {:induction false} PrintedGroups(groups: seq<string>)
    requires GroupsOk(groups)
    ensures Groups(GroupText(groups))
  {
    if groups != [] {
      var g, more := groups[0], GroupText(groups[1..]);
      var s := GroupText(groups);
      assert s == " [" + (g + ("]" + more)) && s[2..] == g + ("]" + more);
      assert s[2..][..|g|] == g && s[2..][|g|..] == "]" + more;
      assert g in groups;
      SpanExactly(s[2..], GROUP_CHAR, |g|);
      assert s[2 + |g|..] == "]" + more && ("]" + more)[1..] == more;
      PrintedGroups(groups[1..]);
    }
  }

  lemma OneMoreGroup(g: string, more: string)
    requires Only(g, GROUP_CHAR) && Grouped(more)
    ensures Grouped(" [" + (g + ("]" + more)))
  {
    var groups :| GroupsOk(groups) && more == GroupText(groups);
    assert ([g] + groups)[1..] == groups;
    assert " [" + (g + ("]" + more)) == " [" + g + "]" + more;
    assert GroupsOk([g] + groups) && " [" + (g + ("]" + more)) == GroupText([g] + groups);
  }

  lemma {:induction false} ReadGroups(s: string)
    requires Groups(s)
    ensures Grouped(s)
    decreases |s|
  {
    if s == "" {
      NoGroups();
    } else {
      var g, more := FirstGroup(s);
      ReadGroups(more);
      OneMoreGroup(g, more);
    }
  }

  /** Putting a text together again from its pieces. */
  lemma Regrouped(s: string, n: nat)
    requires " [" <= s && n < |s| - 2 && s[2 + n] == ']'
    ensures s == " [" + (s[2..][..n] + ("]" + s[2 + n..][1..]))
  {
    assert s == " [" + s[2..];
    assert s[2..] == s[2..][..n] + s[2 + n..];
    assert s[2 + n..] == "]" + s[2 + n..][1..];
  }

  lemma FirstGroup(s: string) returns (g: string, more: string)
    requires Groups(s) && s != ""
    ensures Only(g, GROUP_CHAR) && Groups(more) && |more| < |s| && s == " [" + (g + ("]" + more))
  {
    hide Only, Span;
    var n := Span(s[2..], GROUP_CHAR);
    SpanExactly(s[2..], GROUP_CHAR, n);
    g, more := s[2..][..n], s[2 + n..][1..];
    Regrouped(s, n);
  }

  lemma NoGroups()
    ensures Grouped("")
  {
    assert GroupsOk([]) && "" == GroupText([]);
  }

  lemma GroupsExactly(s: string)
    ensures Groups(s) <==> Grouped(s)
  {
    if Groups(s) {
      ReadGroups(s);
    }
    if Grouped(s) {
      var groups :| GroupsOk(groups) && s == GroupText(groups);
      PrintedGroups(groups);
    }
  }

  lemma GroupsStop(s: string)
    requires Groups(s)
    ensures s == "" || s[0] == ' '
  {
  }

  // ----- changes

  predicate Word(s: string) { s != "" && Only(s, NON_SPACE) }

  predicate Version(s: string) { s != "" && Only(s, VERSION_CHAR) }

  function Candidate(c: Change): string { c.candidate + " " + c.release + ")" }

  function InstText(c: Change): string { "Inst " + c.name + " [" + c.installed + "] (" + Candidate(c) }

  function ConfText(c: Change): string { "Conf " + c.name + " (" + Candidate(c) }

  predicate CandidateOk(c: Change) { Word(c.candidate) && Only(c.release, RELEASE_CHAR) }

  predicate InstOk(c: Change) { Word(c.name) && Version(c.installed) && CandidateOk(c) }

  predicate ConfOk(c: Change) { Word(c.name) && c.installed == "" && CandidateOk(c) }

  lemma CandidateExactly(s: string, c: Change)
    ensures ReadCandidate(s) == Some((c.candidate, c.release)) <==>
      CandidateOk(c) && Candidate(c) <= s && Grouped(s[|Candidate(c)|..])
  {
    hide Take, Skip, Span, Groups, Grouped, Only;
    WhitespaceFacts();
    if ReadCandidate(s) == Some((c.candidate, c.release)) {
      CandidateRead(s, c);
    }
    if CandidateOk(c) && Candidate(c) <= s && Grouped(s[|Candidate(c)|..]) {
      CandidatePrinted(s, c);
    }
  }

  lemma CandidateRead(s: string, c: Change)
    requires ReadCandidate(s) == Some((c.candidate, c.release))
    ensures CandidateOk(c) && Candidate(c) <= s && Grouped(s[|Candidate(c)|..])
  {
    hide Take, Skip, Span, Groups, Grouped, Only;
    var after := Take(s, NON_SPACE).value.1;
    TakeExactly(s, NON_SPACE, c.candidate, after);
    var release := Skip(after, " ").value;
    SkipExactly(after, " ", release);
    var n := Span(release, RELEASE_CHAR);
    SpanExactly(release, RELEASE_CHAR, n);
    var rest := Skip(release[n..], ")").value;
    SkipExactly(release[n..], ")", rest);
    GroupsExactly(rest);
    assert release == c.release + (")" + rest);
    assert s == Candidate(c) + rest;
    assert s[|Candidate(c)|..] == rest;
  }

  lemma CandidatePrinted(s: string, c: Change)
    requires CandidateOk(c) && Candidate(c) <= s && Grouped(s[|Candidate(c)|..])
    ensures ReadCandidate(s) == Some((c.candidate, c.release))
  {
    hide Take, Skip, Span, Groups, Grouped, Only;
    WhitespaceFacts();
    var rest := s[|Candidate(c)|..];
    var release := c.release + (")" + rest);
    var after := " " + release;
    assert s == Candidate(c) + rest && s == c.candidate + after;
    TakeExactly(s, NON_SPACE, c.candidate, after);
    SkipExactly(after, " ", release);
    assert release[..|c.release|] == c.release && release[|c.release|..] == ")" + rest;
    SpanExactly(release, RELEASE_CHAR, |c.release|);
    SkipExactly(")" + rest, ")", rest);
    GroupsExactly(rest);
  }

  /** An Inst line is read as these four fields exactly when it is these four fields printed. */
  lemma InstExactly(line: string, c: Change)
    ensures ReadInst(line) == Some(c) <==> InstOk(c) && InstText(c) <= line && Grouped(line[|InstText(c)|..])
  {
    hide Take, Skip, ReadCandidate, Grouped, Only;
    if ReadInst(line) == Some(c) {
      InstRead(line, c);
    }
    if InstOk(c) && InstText(c) <= line && Grouped(line[|InstText(c)|..]) {
      InstPrinted(line, c);
    }
  }

  lemma InstRead(line: string, c: Change)
    requires ReadInst(line) == Some(c)
    ensures InstOk(c) && InstText(c) <= line && Grouped(line[|InstText(c)|..])
  {
    hide Take, Skip, ReadCandidate, Grouped, Only;
    var body := Skip(line, "Inst ").value;
    SkipExactly(line, "Inst ", body);
    var s1 := Take(body, NON_SPACE).value.1;
    TakeExactly(body, NON_SPACE, c.name, s1);
    var s2 := Skip(s1, " [").value;
    SkipExactly(s1, " [", s2);
    var s3 := Take(s2, VERSION_CHAR).value.1;
    TakeExactly(s2, VERSION_CHAR, c.installed, s3);
    var s4 := Skip(s3, "] (").value;
    SkipExactly(s3, "] (", s4);
    CandidateExactly(s4, c);
    var rest := s4[|Candidate(c)|..];
    assert s4 == Candidate(c) + rest;
    assert line == InstText(c) + rest;
    assert line[|InstText(c)|..] == rest;
  }

  lemma InstPrinted(line: string, c: Change)
    requires InstOk(c) && InstText(c) <= line && Grouped(line[|InstText(c)|..])
    ensures ReadInst(line) == Some(c)
  {
    hide Take, Skip, ReadCandidate, Grouped, Only;
    WhitespaceFacts();
    var rest := line[|InstText(c)|..];
    var s4 := Candidate(c) + rest;
    var s3, s2 := "] (" + s4, c.installed + ("] (" + s4);
    var s1 := " [" + s2;
    var body := c.name + s1;
    assert line == InstText(c) + rest && line == "Inst " + body;
    SkipExactly(line, "Inst ", body);
    TakeExactly(body, NON_SPACE, c.name, s1);
    SkipExactly(s1, " [", s2);
    TakeExactly(s2, VERSION_CHAR, c.installed, s3);
    SkipExactly(s3, "] (", s4);
    assert s4[|Candidate(c)|..] == rest;
    CandidateExactly(s4, c);
  }

  /** So is a Conf line, which carries no installed version. */
  lemma ConfExactly(line: string, c: Change)
    ensures ReadConf(line) == Some(c) <==> ConfOk(c) && ConfText(c) <= line && Grouped(line[|ConfText(c)|..])
  {
    hide Take, Skip, ReadCandidate, Grouped, Only;
    if ReadConf(line) == Some(c) {
      ConfRead(line, c);
    }
    if ConfOk(c) && ConfText(c) <= line && Grouped(line[|ConfText(c)|..]) {
      ConfPrinted(line, c);
    }
  }

  lemma ConfRead(line: string, c: Change)
    requires ReadConf(line) == Some(c)
    ensures ConfOk(c) && ConfText(c) <= line && Grouped(line[|ConfText(c)|..])
  {
    hide Take, Skip, ReadCandidate, Grouped, Only;
    var body := Skip(line, "Conf ").value;
    SkipExactly(line, "Conf ", body);
    var s1 := Take(body, NON_SPACE).value.1;
    TakeExactly(body, NON_SPACE, c.name, s1);
    var s2 := Skip(s1, " (").value;
    SkipExactly(s1, " (", s2);
    CandidateExactly(s2, c);
    var rest := s2[|Candidate(c)|..];
    assert s2 == Candidate(c) + rest;
    assert line == ConfText(c) + rest;
    assert line[|ConfText(c)|..] == rest;
  }

  lemma ConfPrinted(line: string, c: Change)
    requires ConfOk(c) && ConfText(c) <= line && Grouped(line[|ConfText(c)|..])
    ensures ReadConf(line) == Some(c)
  {
    hide Take, Skip, ReadCandidate, Grouped, Only;
    WhitespaceFacts();
    var rest := line[|ConfText(c)|..];
    var s2 := Candidate(c) + rest;
    var s1 := " (" + s2;
    var body := c.name + s1;
    assert line == ConfText(c) + rest && line == "Conf " + body;
    SkipExactly(line, "Conf ", body);
    TakeExactly(body, NON_SPACE, c.name, s1);
    SkipExactly(s1, " (", s2);
    assert s2[|Candidate(c)|..] == rest;
    CandidateExactly(s2, c);
  }

  // ----- names and descriptions

  lemma {:induction false} IndexExactly(s: string, c: char, i: nat)
    requires i <= |s|
    ensures IndexOf(s, c) == i <==> c !in s[..i] && (i < |s| ==> s[i] == c)
  {
    if s == "" || s[0] == c {
      assert 0 < i ==> s[..i][0] == s[0];
    } else if 0 < i {
      IndexExactly(s[1..], c, i - 1);
      assert s[..i] == [s[0]] + s[1..][..i - 1];
    }
  }

  /** A package name is what stands before the first colon; what follows it, if there is one, is an architecture. */
  lemma QualifiedExactly(raw: string, name: string, qualified: Option<string>)
    ensures SplitQualified(raw) == (name, qualified) <==>
      ':' !in name && raw == if qualified.Some? then name + ":" + qualified.value else name
  {
    var i := IndexOf(raw, ':');
    IndexExactly(raw, ':', i);
    if i < |raw| {
      assert raw == raw[..i] + ":" + raw[i + 1..];
    } else {
      assert raw[..i] == raw;
    }
    if ':' !in name && qualified.Some? && raw == name + ":" + qualified.value {
      assert raw[..|name|] == name && raw[|name|] == ':' && raw[|name| + 1..] == qualified.value;
      IndexExactly(raw, ':', |name|);
    }
  }

  /** Lower-case words joined by single hyphens, the first beginning with a letter. */
  predicate Hyphenated(s: string) {
    && s != "" && 'a' <= s[0] <= 'z' && s[|s| - 1] != '-'
    && (forall i | 0 <= i < |s| :: LowerAlnum(s[i]) || s[i] == '-')
    && (forall i | 0 <= i < |s| - 1 :: s[i] == '-' ==> s[i + 1] != '-')
  }

  predicate RestOk(s: string) {
    && (s != "" ==> s[|s| - 1] != '-')
    && (forall i | 0 <= i < |s| :: LowerAlnum(s[i]) || s[i] == '-')
    && (forall i | 0 <= i < |s| - 1 :: s[i] == '-' ==> s[i + 1] != '-')
  }

  lemma {:induction false} RestExactly(s: string)
    ensures ArchitectureRest(s) <==> RestOk(s)
    decreases |s|
  {
    if s == "" {
    } else if LowerAlnum(s[0]) {
      RestExactly(s[1..]);
      RestTail(s, 1);
    } else if |s| >= 2 && s[0] == '-' && LowerAlnum(s[1]) {
      RestExactly(s[2..]);
      RestTail(s, 2);
    } else {
      assert |s| >= 2 ==> LowerAlnum(s[1]) || s[1] == '-' || !RestOk(s);
    }
  }

  lemma RestTail(s: string, n: nat)
    requires (n == 1 && s != "" && LowerAlnum(s[0])) || (n == 2 && |s| >= 2 && s[0] == '-' && LowerAlnum(s[1]))
    ensures RestOk(s[n..]) <==> RestOk(s)
  {
    var r := s[n..];
    assert forall i | 0 <= i < |r| :: r[i] == s[i + n];
    assert RestOk(r) ==> forall i | n <= i < |s| :: s[i] == r[i - n] && (LowerAlnum(r[i - n]) || r[i - n] == '-');
    if RestOk(r) {
      forall i | 0 <= i < |s| - 1 && s[i] == '-' ensures s[i + 1] != '-' {
        if i >= n {
          assert r[i - n] == '-' && r[i - n + 1] == s[i + 1];
        }
      }
    }
    if RestOk(s) {
      forall i | 0 <= i < |r| - 1 && r[i] == '-' ensures r[i + 1] != '-' {
        assert s[i + n] == '-' && s[i + n + 1] == r[i + 1];
      }
    }
  }

  lemma ArchitectureExactly(s: string)
    ensures ValidArchitecture(s) <==> Hyphenated(s)
  {
    if s != "" {
      var r := s[1..];
      RestExactly(r);
      if 'a' <= s[0] <= 'z' {
        RestTail(s, 1);
        assert RestOk(s) <==> Hyphenated(s);
      }
    }
  }

  lemma ArchitecturePlain(s: string)
    requires ValidArchitecture(s)
    ensures '[' !in s && ']' !in s
  {
    ArchitectureExactly(s);
  }

  lemma {:induction false} LastIndexOf(before: string, c: char, after: string)
    requires c !in after
    ensures LastIndex(before + [c] + after, c) == |before|
  {
    var s := before + [c] + after;
    if after != "" {
      var shorter := after[..|after| - 1];
      assert s[..|s| - 1] == before + [c] + shorter;
      assert s[|s| - 1] == after[|after| - 1];
      LastIndexOf(before, c, shorter);
    }
  }

  function Bounded(text: string): Option<string> { if text == "" || |text| > 500 then None else Some(text) }

  /** A description is an origin, a blank and an architecture in brackets, or that architecture alone. */
  ghost predicate Describes(release: string, origin: Option<string>, architecture: string) {
    && ValidArchitecture(architecture)
    && ((release == "[" + architecture + "]" && origin == None)
        || exists text :: release == text + " [" + architecture + "]" && origin == Bounded(Strip(text)))
  }

  lemma DescriptionExactly(release: string, origin: Option<string>, architecture: string)
    ensures ReadDescription(release) == Some((origin, architecture)) <==> Describes(release, origin, architecture)
  {
    hide ReadDescription, Describes;
    if Describes(release, origin, architecture) {
      DescribedIsRead(release, origin, architecture);
    }
    if ReadDescription(release) == Some((origin, architecture)) {
      ReadIsDescribed(release, origin, architecture);
    }
  }

  lemma DescribedIsRead(release: string, origin: Option<string>, architecture: string)
    requires Describes(release, origin, architecture)
    ensures ReadDescription(release) == Some((origin, architecture))
  {
    hide ValidArchitecture, Strip, ReadDescription, Bounded;
    if release == "[" + architecture + "]" && origin == None {
      DescriptionPrinted("", architecture);
      assert "" + "[" + architecture + "]" == release;
    } else {
      var text :| release == text + " [" + architecture + "]" && origin == Bounded(Strip(text));
      OriginIsRead(text, architecture);
    }
  }

  lemma OriginIsRead(text: string, architecture: string)
    requires ValidArchitecture(architecture)
    ensures ReadDescription(text + " [" + architecture + "]") == Some((Bounded(Strip(text)), architecture))
  {
    hide ValidArchitecture, Strip, ReadDescription, Bounded;
    var before := text + " ";
    DescriptionPrinted(before, architecture);
    assert before[..|before| - 1] == text;
    assert text + " [" + architecture + "]" == before + "[" + architecture + "]";
  }

  lemma ReadIsDescribed(release: string, origin: Option<string>, architecture: string)
    requires ReadDescription(release) == Some((origin, architecture))
    ensures Describes(release, origin, architecture)
  {
    hide ValidArchitecture, Strip, LastIndex;
    var before := release[..LastIndex(release, '[')];
    assert release == before + "[" + architecture + "]";
    if before != "" {
      var text := before[..|before| - 1];
      assert before == text + " ";
      assert release == text + " [" + architecture + "]" && origin == Bounded(Strip(text));
    }
  }

  lemma DescriptionPrinted(before: string, architecture: string)
    requires ValidArchitecture(architecture)
    requires before == "" || before[|before| - 1] == ' '
    ensures var release := before + "[" + architecture + "]";
      ReadDescription(release) ==
        Some((if before == "" then None else Bounded(Strip(before[..|before| - 1])), architecture))
  {
    hide ValidArchitecture, Strip;
    var release := before + "[" + architecture + "]";
    ArchitecturePlain(architecture);
    assert release == before + ['['] + (architecture + "]");
    LastIndexOf(before, '[', architecture + "]");
    assert release[..|before|] == before && release[|before| + 1..|release| - 1] == architecture;
    if before == "" {
      assert Strip("") == "" by { NothingToStrip(); }
    }
  }

  lemma NothingToStrip()
    ensures Strip("") == ""
  {
  }

  // ----- counts

  /** One to nine digits that make up this number. */
  predicate Counts(digits: string, n: nat) {
    1 <= |digits| <= 9 && (forall i | 0 <= i < |digits| :: Digit(digits[i])) && Number(digits) == n
  }

  lemma CountExactly(s: string, n: nat, rest: string)
    ensures ReadCount(s) == Some((n, rest)) <==>
      exists digits :: Counts(digits, n) && s == digits + rest && StopsAt(rest, IS_DIGIT)
  {
    var k := Span(s, IS_DIGIT);
    SpanExactly(s, IS_DIGIT, k);
    SpanAccepts(s, IS_DIGIT);
    assert s == s[..k] + s[k..];
    if ReadCount(s) == Some((n, rest)) {
      assert Counts(s[..k], n) && s == s[..k] + rest;
    }
    if digits :| Counts(digits, n) && s == digits + rest && StopsAt(rest, IS_DIGIT) {
      assert s[..|digits|] == digits && s[|digits|..] == rest;
      SpanExactly(s, IS_DIGIT, |digits|);
    }
  }

  ghost predicate PrintsSummary(line: string, t: Totals, upgraded: string, added: string, removed: string, held: string) {
    && Counts(upgraded, t.upgraded) && Counts(added, t.added) && Counts(removed, t.removed) && Counts(held, t.held)
    && line == upgraded + (" upgraded, " + (added + (" newly installed, " + (removed + (" to remove and " + (held + " not upgraded."))))))
  }

  /** A summary is read as these four counts exactly when it is them printed, leading zeros or not. */
  lemma SummaryExactly(line: string, t: Totals)
    ensures ReadSummary(line) == Some(t) <==>
      exists upgraded, added, removed, held :: PrintsSummary(line, t, upgraded, added, removed, held)
  {
    hide ReadCount, Skip, Counts;
    if ReadSummary(line) == Some(t) {
      var upgraded, added, removed, held := SummaryRead(line, t);
    }
    if upgraded, added, removed, held :| PrintsSummary(line, t, upgraded, added, removed, held) {
      SummaryPrinted(line, t, upgraded, added, removed, held);
    }
  }

  lemma SummaryRead(line: string, t: Totals) returns (upgraded: string, added: string, removed: string, held: string)
    requires ReadSummary(line) == Some(t)
    ensures PrintsSummary(line, t, upgraded, added, removed, held)
  {
    hide ReadCount, Skip, Counts, StopsAt;
    var r1 := ReadCount(line).value.1;
    CountExactly(line, t.upgraded, r1);
    upgraded :| Counts(upgraded, t.upgraded) && line == upgraded + r1;
    var s1 := Skip(r1, " upgraded, ").value;
    SkipExactly(r1, " upgraded, ", s1);
    var r2 := ReadCount(s1).value.1;
    CountExactly(s1, t.added, r2);
    added :| Counts(added, t.added) && s1 == added + r2;
    var s2 := Skip(r2, " newly installed, ").value;
    SkipExactly(r2, " newly installed, ", s2);
    var r3 := ReadCount(s2).value.1;
    CountExactly(s2, t.removed, r3);
    removed :| Counts(removed, t.removed) && s2 == removed + r3;
    var s3 := Skip(r3, " to remove and ").value;
    SkipExactly(r3, " to remove and ", s3);
    CountExactly(s3, t.held, " not upgraded.");
    held :| Counts(held, t.held) && s3 == held + " not upgraded.";
  }

  lemma CountPrinted(digits: string, n: nat, rest: string)
    requires Counts(digits, n) && StopsAt(rest, IS_DIGIT)
    ensures ReadCount(digits + rest) == Some((n, rest))
  {
    CountExactly(digits + rest, n, rest);
  }

  lemma SummaryPrinted(line: string, t: Totals, upgraded: string, added: string, removed: string, held: string)
    requires PrintsSummary(line, t, upgraded, added, removed, held)
    ensures ReadSummary(line) == Some(t)
  {
    hide ReadCount, Skip, Counts;
    var s3 := held + " not upgraded.";
    var s2 := removed + (" to remove and " + s3);
    var s1 := added + (" newly installed, " + s2);
    CountPrinted(upgraded, t.upgraded, " upgraded, " + s1);
    SkipExactly(" upgraded, " + s1, " upgraded, ", s1);
    CountPrinted(added, t.added, " newly installed, " + s2);
    SkipExactly(" newly installed, " + s2, " newly installed, ", s2);
    CountPrinted(removed, t.removed, " to remove and " + s3);
    SkipExactly(" to remove and " + s3, " to remove and ", s3);
    CountPrinted(held, t.held, " not upgraded.");
  }

  lemma UnfinishedExactly(line: string)
    ensures ReportsUnfinished(line) <==>
      exists digits, n: nat :: Counts(digits, n) && line == digits + " not fully installed or removed."
  {
    hide ReadCount, Counts;
    if ReportsUnfinished(line) {
      CountExactly(line, ReadCount(line).value.0, " not fully installed or removed.");
    }
    if digits, n: nat :| Counts(digits, n) && line == digits + " not fully installed or removed." {
      CountPrinted(digits, n, " not fully installed or removed.");
    }
  }

  function DigitOf(n: nat): char
    requires n < 10
  {
    '0' + n as char
  }

  function Decimal(n: nat): string { if n < 10 then [DigitOf(n)] else Decimal(n / 10) + [DigitOf(n % 10)] }

  function Power(k: nat): nat { if k == 0 then 1 else 10 * Power(k - 1) }

  /** A number below a thousand million is what its own decimal digits count. */
  lemma {:induction false} DecimalCounts(n: nat, width: nat)
    requires 1 <= width && n < Power(width)
    ensures 1 <= |Decimal(n)| <= width
    ensures (forall i | 0 <= i < |Decimal(n)| :: Digit(Decimal(n)[i])) && Number(Decimal(n)) == n
  {
    if n < 10 {
      assert Decimal(n)[..0] == "";
      assert Number("") == 0;
    } else {
      assert width > 1 by {
        assert Power(1) == 10 * Power(0);
      }
      DecimalCounts(n / 10, width - 1);
      var front := Decimal(n / 10);
      assert Decimal(n)[..|Decimal(n)| - 1] == front;
    }
  }

  /** Four numbers below a thousand million, printed in decimal, are the four counts that are read. */
  lemma DecimalSummary(t: Totals)
    requires t.upgraded < 1_000_000_000 && t.added < 1_000_000_000 && t.removed < 1_000_000_000 && t.held < 1_000_000_000
    ensures ReadSummary(
      Decimal(t.upgraded) + (" upgraded, " + (Decimal(t.added) + (" newly installed, " + (Decimal(t.removed)
      + (" to remove and " + (Decimal(t.held) + " not upgraded."))))))) == Some(t)
  {
    hide ReadSummary;
    assert Power(9) == 1_000_000_000 by {
      assert Power(3) == 1000 && Power(6) == 1_000_000;
    }
    DecimalCounts(t.upgraded, 9);
    DecimalCounts(t.added, 9);
    DecimalCounts(t.removed, 9);
    DecimalCounts(t.held, 9);
    SummaryPrinted(
      Decimal(t.upgraded) + (" upgraded, " + (Decimal(t.added) + (" newly installed, " + (Decimal(t.removed)
      + (" to remove and " + (Decimal(t.held) + " not upgraded.")))))),
      t, Decimal(t.upgraded), Decimal(t.added), Decimal(t.removed), Decimal(t.held));
  }

  // ----- whole lines

  /** The line is this text, followed by nothing but bracketed groups. */
  ghost predicate Prints(line: string, text: string) { text <= line && Grouped(line[|text|..]) }

  /** The name as APT prints it, with its architecture after a colon if it gives one. */
  function Printed(name: string, qualified: Option<string>): string {
    if qualified.Some? then name + ":" + qualified.value else name
  }

  /** A name that a colon may qualify, but only with the architecture its description gives. */
  predicate Named(raw: string, name: string, qualified: Option<string>, architecture: string) {
    raw == Printed(name, qualified) && ':' !in name && (qualified.None? || qualified.value == architecture)
  }

  /** The line is the Inst line of this package, whole field by whole field. */
  ghost predicate PrintsInst(line: string, l: Line, release: string)
    requires l.Inst?
  {
    var c := Change(l.raw, l.installed, l.candidate, release);
    && InstOk(c) && Prints(line, InstText(c)) && Describes(release, l.origin, l.architecture)
    && Named(l.raw, l.name, l.qualified, l.architecture)
  }

  ghost predicate PrintsConf(line: string, l: Line, release: string)
    requires l.Conf?
  {
    var c := Change(l.raw, "", l.candidate, release);
    && ConfOk(c) && Prints(line, ConfText(c))
    && (exists origin :: Describes(release, origin, l.architecture))
    && (exists name, qualified :: Named(l.raw, name, qualified, l.architecture))
  }

  lemma InstLineExactly(line: string, l: Line)
    requires l.Inst?
    ensures InstLine(line) == l <==> exists release :: PrintsInst(line, l, release)
  {
    hide ReadInst, SplitQualified, ReadDescription, InstOk, Describes, Grouped;
    QualifiedExactly(l.raw, l.name, l.qualified);
    if InstLine(line) == l {
      var c := ReadInst(line).value;
      InstExactly(line, c);
      assert c == Change(l.raw, l.installed, l.candidate, c.release);
      DescriptionExactly(c.release, l.origin, l.architecture);
      assert PrintsInst(line, l, c.release);
    }
    if release :| PrintsInst(line, l, release) {
      InstExactly(line, Change(l.raw, l.installed, l.candidate, release));
      DescriptionExactly(release, l.origin, l.architecture);
    }
  }

  /** A line is taken for this change exactly when it is this change printed. */
  lemma InstReadsBack(raw: string, l: Line)
    requires l.Inst?
    ensures ReadLine(raw) == l <==> exists release :: PrintsInst(Strip(raw), l, release)
  {
    hide InstLine, ConfLine, PrintsInst, Strip, ReadSummary, ReportsUnfinished;
    var line := Strip(raw);
    InstLineExactly(line, l);
    ConfLineIsNoInst(line);
    if release :| PrintsInst(line, l, release) {
      PrintsInstBegins(line, l, release);
    }
  }

  lemma PrintsInstBegins(line: string, l: Line, release: string)
    requires l.Inst? && PrintsInst(line, l, release)
    ensures line != "" && "Inst " <= line && !("Remv " <= line) && !("Purg " <= line) && !("Conf " <= line)
  {
    var text := InstText(Change(l.raw, l.installed, l.candidate, release));
    assert text[..5] == "Inst " && line[..5] == "Inst ";
    Beginnings(line);
  }

  lemma ConfLineIsNoInst(line: string)
    ensures !ConfLine(line).Inst? && !InstLine(line).Conf? && !ConfLine(line).Summary? && !InstLine(line).Summary?
    ensures !ConfLine(line).Ignored? && !InstLine(line).Ignored?
  {
    hide ReadInst, ReadConf, SplitQualified, ReadDescription;
  }

  lemma ConfLineExactly(line: string, l: Line)
    requires l.Conf?
    ensures ConfLine(line) == l <==> exists release :: PrintsConf(line, l, release)
  {
    hide ReadConf, SplitQualified, ReadDescription, ConfOk, Describes, Grouped;
    if ConfLine(line) == l {
      var c := ReadConf(line).value;
      ConfExactly(line, c);
      ConfHasNoVersion(line, c);
      var (origin, architecture) := ReadDescription(c.release).value;
      DescriptionExactly(c.release, origin, architecture);
      var (name, qualified) := SplitQualified(l.raw);
      QualifiedExactly(l.raw, name, qualified);
      assert Named(l.raw, name, qualified, l.architecture) && PrintsConf(line, l, c.release);
    }
    if release :| PrintsConf(line, l, release) {
      ConfExactly(line, Change(l.raw, "", l.candidate, release));
      var origin :| Describes(release, origin, l.architecture);
      DescriptionExactly(release, origin, l.architecture);
      var name, qualified :| Named(l.raw, name, qualified, l.architecture);
      QualifiedExactly(l.raw, name, qualified);
    }
  }

  lemma ConfHasNoVersion(line: string, c: Change)
    requires ReadConf(line) == Some(c)
    ensures c.installed == ""
  {
  }

  lemma ConfReadsBack(raw: string, l: Line)
    requires l.Conf?
    ensures ReadLine(raw) == l <==> exists release :: PrintsConf(Strip(raw), l, release)
  {
    hide InstLine, ConfLine, PrintsConf, Strip, ReadSummary, ReportsUnfinished;
    var line := Strip(raw);
    ConfLineExactly(line, l);
    ConfLineIsNoInst(line);
    if release :| PrintsConf(line, l, release) {
      PrintsConfBegins(line, l, release);
    }
  }

  lemma PrintsConfBegins(line: string, l: Line, release: string)
    requires l.Conf? && PrintsConf(line, l, release)
    ensures line != "" && "Conf " <= line && !("Remv " <= line) && !("Purg " <= line) && !("Inst " <= line)
  {
    var text := ConfText(Change(l.raw, "", l.candidate, release));
    assert text[..5] == "Conf " && line[..5] == "Conf ";
    Beginnings(line);
  }

  lemma Beginnings(line: string)
    ensures "Inst " <= line ==> line != "" && line[0] == 'I'
    ensures "Conf " <= line ==> line != "" && line[0] == 'C'
    ensures "Remv " <= line ==> line != "" && line[0] == 'R'
    ensures "Purg " <= line ==> line != "" && line[0] == 'P'
  {
  }

  // ----- summaries and unfinished counts

  lemma CountBegins(line: string, digits: string, n: nat, rest: string)
    requires Counts(digits, n) && line == digits + rest
    ensures line != "" && Digit(line[0])
    ensures !("Remv " <= line) && !("Purg " <= line) && !("Inst " <= line) && !("Conf " <= line)
  {
    assert line[0] == digits[0];
  }

  /** No line is a summary and a count of unfinished packages at once. */
  lemma SummaryIsNotUnfinished(line: string)
    ensures !(ReadSummary(line).Some? && ReportsUnfinished(line))
  {
    hide ReadCount;
    if ReportsUnfinished(line) {
      assert ReadCount(line).value.1[1] == 'n';
    }
  }

  lemma SummaryReadsBack(raw: string, t: Totals)
    ensures ReadLine(raw) == Summary(t) <==>
      exists upgraded, added, removed, held :: PrintsSummary(Strip(raw), t, upgraded, added, removed, held)
  {
    hide InstLine, ConfLine, Strip, ReadSummary, ReportsUnfinished, Counts;
    var line := Strip(raw);
    SummaryExactly(line, t);
    SummaryIsNotUnfinished(line);
    ConfLineIsNoInst(line);
    if upgraded, added, removed, held :| PrintsSummary(line, t, upgraded, added, removed, held) {
      CountBegins(line, upgraded, t.upgraded, line[|upgraded|..]);
    }
  }

  lemma UnfinishedReadsBack(raw: string)
    ensures ReadLine(raw) == Broken(DpkgUnfinished) <==>
      exists digits, n: nat :: Counts(digits, n) && Strip(raw) == digits + " not fully installed or removed."
  {
    hide InstLine, ConfLine, Strip, ReadSummary, ReportsUnfinished, Counts;
    var line := Strip(raw);
    UnfinishedExactly(line);
    OnlyMalformed(line);
    if digits, n: nat :| Counts(digits, n) && line == digits + " not fully installed or removed." {
      CountBegins(line, digits, n, " not fully installed or removed.");
    }
  }

  lemma OnlyMalformed(line: string)
    ensures InstLine(line).Broken? ==> InstLine(line).failure == MalformedPlan
    ensures ConfLine(line).Broken? ==> ConfLine(line).failure == MalformedPlan
    ensures InstLine(line).Broken? || InstLine(line).Inst?
    ensures ConfLine(line).Broken? || ConfLine(line).Conf?
  {
    hide ReadInst, ReadConf, SplitQualified, ReadDescription;
  }

  /** Removals and purges, and any Inst or Conf line that is not one printed, spoil the plan. */
  lemma MalformedExactly(raw: string)
    ensures ReadLine(raw) == Broken(MalformedPlan) <==>
      || "Remv " <= Strip(raw) || "Purg " <= Strip(raw)
      || ("Inst " <= Strip(raw) && forall l: Line, release | l.Inst? :: !PrintsInst(Strip(raw), l, release))
      || ("Conf " <= Strip(raw) && forall l: Line, release | l.Conf? :: !PrintsConf(Strip(raw), l, release))
  {
    hide InstLine, ConfLine, Strip, ReadSummary, ReportsUnfinished, PrintsInst, PrintsConf;
    var line := Strip(raw);
    OnlyMalformed(line);
    ConfLineIsNoInst(line);
    forall l: Line | l.Inst? ensures ReadLine(raw) == l <==> exists release :: PrintsInst(Strip(raw), l, release) {
      InstReadsBack(raw, l);
    }
    forall l: Line | l.Conf? ensures ReadLine(raw) == l <==> exists release :: PrintsConf(Strip(raw), l, release) {
      ConfReadsBack(raw, l);
    }
    Beginnings(line);
  }

  // ----- plans over printed lines

  /** The line prints this (name, architecture, installed, candidate) row. */
  ghost predicate PrintsRow(raw: string, row: PlanRow) {
    exists l: Line, release ::
      l.Inst? && PrintsInst(Strip(raw), l, release) && row == (l.name, l.architecture, l.installed, l.candidate)
  }

  lemma RowExactly(raw: string, row: PlanRow)
    ensures PlansRow(raw, row) <==> PrintsRow(raw, row)
  {
    hide ReadLine, PrintsInst;
    if PlansRow(raw, row) {
      InstReadsBack(raw, ReadLine(raw));
    }
    if PrintsRow(raw, row) {
      var l: Line, release :| l.Inst? && PrintsInst(Strip(raw), l, release) && row == (l.name, l.architecture, l.installed, l.candidate);
      InstReadsBack(raw, l);
    }
  }

  ghost predicate RowPrinted(lines: seq<string>, row: PlanRow) { exists raw | raw in lines :: PrintsRow(raw, row) }

  /**
   Two accepted plans are equal to the manager exactly when the same rows were printed: change one character of one
   name, architecture, installed version or candidate and the plans differ.
   */
  lemma PrintedPlansDecide(a: seq<string>, b: seq<string>, p: seq<PendingPackage>, q: seq<PendingPackage>)
    requires PackagesAre(p, a) && PackagesAre(q, b)
    ensures PlanTuple(p) == PlanTuple(q) <==> forall row: PlanRow :: RowPrinted(a, row) <==> RowPrinted(b, row)
  {
    hide PackagesAre, PlanTuple, PlansRow, PrintsRow;
    PlanTuplesDecide(a, b, p, q);
    forall raw: string, row: PlanRow ensures PlansRow(raw, row) <==> PrintsRow(raw, row) {
      RowExactly(raw, row);
    }
    forall row: PlanRow
      ensures RowPlanned(a, row) <==> RowPrinted(a, row)
      ensures RowPlanned(b, row) <==> RowPrinted(b, row)
    {
    }
  }

  // ----- removals

  function RemvText(name: string, qualified: Option<string>, installed: string): string {
    "Remv " + Printed(name, qualified) + " [" + installed + "]"
  }

  predicate RemvOk(name: string, qualified: Option<string>, installed: string) {
    ':' !in name && Word(Printed(name, qualified)) && Version(installed)
  }

  lemma RemvExactly(line: string, name: string, qualified: Option<string>, installed: string)
    ensures ReadRemv(line) == Remv(name, qualified, installed) <==>
      && RemvOk(name, qualified, installed) && RemvText(name, qualified, installed) <= line
      && Grouped(line[|RemvText(name, qualified, installed)|..])
  {
    hide ReadRemv, Grouped;
    if ReadRemv(line) == Remv(name, qualified, installed) {
      RemvRead(line, name, qualified, installed);
    }
    if RemvOk(name, qualified, installed) && RemvText(name, qualified, installed) <= line
      && Grouped(line[|RemvText(name, qualified, installed)|..])
    {
      RemvPrinted(line, name, qualified, installed);
    }
  }

  lemma RemvRead(line: string, name: string, qualified: Option<string>, installed: string)
    requires ReadRemv(line) == Remv(name, qualified, installed)
    ensures RemvOk(name, qualified, installed) && RemvText(name, qualified, installed) <= line
    ensures Grouped(line[|RemvText(name, qualified, installed)|..])
  {
    hide Take, Skip, Groups, SplitQualified, Grouped, Only;
    var body := Skip(line, "Remv ").value;
    SkipExactly(line, "Remv ", body);
    var (raw, s1) := Take(body, NON_SPACE).value;
    TakeExactly(body, NON_SPACE, raw, s1);
    var s2 := Skip(s1, " [").value;
    SkipExactly(s1, " [", s2);
    var s3 := Take(s2, VERSION_CHAR).value.1;
    TakeExactly(s2, VERSION_CHAR, installed, s3);
    var rest := Skip(s3, "]").value;
    SkipExactly(s3, "]", rest);
    GroupsExactly(rest);
    QualifiedExactly(raw, name, qualified);
    assert line == RemvText(name, qualified, installed) + rest;
    assert line[|RemvText(name, qualified, installed)|..] == rest;
  }

  lemma RemvPrinted(line: string, name: string, qualified: Option<string>, installed: string)
    requires RemvOk(name, qualified, installed) && RemvText(name, qualified, installed) <= line
    requires Grouped(line[|RemvText(name, qualified, installed)|..])
    ensures ReadRemv(line) == Remv(name, qualified, installed)
  {
    hide Take, Skip, Groups, SplitQualified, Grouped, Only;
    WhitespaceFacts();
    var rest := line[|RemvText(name, qualified, installed)|..];
    var raw := Printed(name, qualified);
    var s3 := "]" + rest;
    var s2 := installed + s3;
    var s1 := " [" + s2;
    var body := raw + s1;
    assert line == RemvText(name, qualified, installed) + rest && line == "Remv " + body;
    SkipExactly(line, "Remv ", body);
    TakeExactly(body, NON_SPACE, raw, s1);
    SkipExactly(s1, " [", s2);
    TakeExactly(s2, VERSION_CHAR, installed, s3);
    SkipExactly(s3, "]", rest);
    GroupsExactly(rest);
    QualifiedExactly(raw, name, qualified);
  }

  /** A line is taken for this removal exactly when it is this removal printed. */
  lemma RemvReadsBack(raw: string, name: string, qualified: Option<string>, installed: string)
    ensures ReadRemoval(raw) == Remv(name, qualified, installed) <==>
      RemvOk(name, qualified, installed) && Prints(Strip(raw), RemvText(name, qualified, installed))
  {
    hide ReadRemv, RemvOk, Grouped, Strip, ReadSummary, ReportsUnfinished;
    var line := Strip(raw);
    RemvExactly(line, name, qualified, installed);
    if RemvText(name, qualified, installed) <= line {
      assert RemvText(name, qualified, installed)[..5] == "Remv " && line[..5] == "Remv ";
      Beginnings(line);
    }
  }

  // ----- security origins

  predicate Separates(c: char) { c == '/' || c == ' ' || c == ':' }

  /** This word stands here, with nothing but separators or an end on either side of it. */
  predicate WordAt(s: string, i: nat, word: string) {
    && i + |word| <= |s| && s[i..i + |word|] == word && (forall c | c in word :: !Separates(c))
    && (i + |word| < |s| ==> Separates(s[i + |word|]))
  }

  predicate LaterAt(s: string, i: nat, word: string) { 0 < i <= |s| && Separates(s[i - 1]) && WordAt(s, i, word) }

  lemma ShiftedWord(s: string, i: nat, word: string)
    requires s != ""
    ensures WordAt(s[1..], i, word) <==> WordAt(s, i + 1, word)
    ensures i == 0 ==> (LaterAt(s, i + 1, word) <==> Separates(s[0]) && WordAt(s[1..], 0, word))
    ensures i > 0 ==> (LaterAt(s, i + 1, word) <==> LaterAt(s[1..], i, word))
  {
    if i + 1 + |word| <= |s| {
      assert s[1..][i..i + |word|] == s[i + 1..i + 1 + |word|];
    }
  }

  lemma LongerWord(s: string, word: string)
    requires s != "" && !Separates(s[0])
    ensures WordAt(s, 0, word) <==> word != "" && word[0] == s[0] && WordAt(s[1..], 0, word[1..])
  {
    if word != "" && word[0] == s[0] && |word| <= |s| {
      assert word == [word[0]] + word[1..];
      assert s[1..][0..|word| - 1] == s[0..|word|][1..];
      if s[1..][0..|word| - 1] == word[1..] {
        assert s[0..|word|] == [s[0]] + s[1..][0..|word| - 1];
      }
    } else if |word| <= |s| && word != "" {
      assert s[0..|word|][0] == s[0];
    }
  }

  lemma {:induction false} SegmentsExactly(s: string, word: string)
    ensures |Segments(s)| >= 1
    ensures word == Segments(s)[0] <==> WordAt(s, 0, word)
    ensures word in Segments(s)[1..] <==> exists i: nat :: LaterAt(s, i, word)
  {
    hide WordAt, LaterAt;
    if s == "" {
      NothingInEmpty(word);
    } else {
      SegmentsExactly(s[1..], word);
      assert forall i: nat :: LaterAt(s[1..], i, word) ==> i > 0 by { LaterIsLater(s[1..], word); }
      assert forall i: nat :: LaterAt(s, i, word) ==> i > 0 by { LaterIsLater(s, word); }
      forall i: nat
        ensures LaterAt(s, i + 1, word) <==> if i == 0 then Separates(s[0]) && WordAt(s[1..], 0, word) else LaterAt(s[1..], i, word)
      {
        ShiftedWord(s, i, word);
      }
      ShiftedWord(s, 0, word);
      if i: nat :| LaterAt(s, i, word) {
        ShiftedWord(s, i - 1, word);
      }
      if i: nat :| LaterAt(s[1..], i, word) {
        assert LaterAt(s, i + 1, word);
      }
      if Separates(s[0]) {
        assert Segments(s) == [""] + Segments(s[1..]);
        assert word in Segments(s[1..]) <==> word == Segments(s[1..])[0] || word in Segments(s[1..])[1..];
        SeparatedAtOnce(s, word);
      } else {
        LongerWord(s, word);
        assert Segments(s)[1..] == Segments(s[1..])[1..];
        if word != "" {
          SegmentsExactly(s[1..], word[1..]);
          assert word == [word[0]] + word[1..];
        }
      }
    }
  }

  lemma NothingInEmpty(word: string)
    ensures WordAt("", 0, word) <==> word == ""
    ensures forall i: nat :: !LaterAt("", i, word)
  {
  }

  lemma LaterIsLater(s: string, word: string)
    ensures forall i: nat :: LaterAt(s, i, word) ==> i > 0
  {
  }

  lemma SeparatedAtOnce(s: string, word: string)
    requires s != "" && Separates(s[0])
    ensures WordAt(s, 0, word) <==> word == ""
  {
    if word != "" && |word| <= |s| && s[0..|word|] == word {
      assert word[0] == s[0] && s[0] in word;
    }
  }

  /** The word ends in "-security", in whatever case it is written. */
  predicate SecurityWord(word: string) {
    |word| >= 9
    && forall i | 0 <= i < 9 :: word[|word| - 9 + i] == "-security"[i] || word[|word| - 9 + i] == "-SECURITY"[i]
  }

  lemma SecurityWordExactly(word: string)
    ensures EndsWith(Lower(word), "-security") <==> SecurityWord(word)
  {
    if |word| >= 9 {
      var tail := Lower(word)[|word| - 9..];
      assert forall i | 0 <= i < 9 :: tail[i] == Lower(word)[|word| - 9 + i];
      forall i | 0 <= i < 9
        ensures tail[i] == "-security"[i] <==> word[|word| - 9 + i] == "-security"[i] || word[|word| - 9 + i] == "-SECURITY"[i]
      {
        Letters(word[|word| - 9 + i], i);
      }
      assert tail == "-security" <==> forall i | 0 <= i < 9 :: tail[i] == "-security"[i];
    }
  }

  function LowerChar(c: char): char { if 'A' <= c <= 'Z' then c - 'A' + 'a' else c }

  lemma Letters(c: char, i: nat)
    requires i < 9
    ensures LowerChar(c) == "-security"[i] <==> c == "-security"[i] || c == "-SECURITY"[i]
  {
    assert i == 0 || i == 1 || i == 2 || i == 3 || i == 4 || i == 5 || i == 6 || i == 7 || i == 8;
  }

  /** An origin is known to be a security one exactly when one of its separated words ends in "-security". */
  lemma SecurityExactly(origin: Option<string>)
    ensures Security(origin) == Some(true) || Security(origin) == None
    ensures Security(origin) == Some(true) <==>
      origin.Some? && exists i: nat, word ::
        (i == 0 || LaterAt(origin.value, i, word)) && WordAt(origin.value, i, word) && SecurityWord(word)
  {
    hide WordAt, LaterAt, EndsWith, Lower, SecurityWord;
    if origin.Some? {
      var s := origin.value;
      forall word: string ensures EndsWith(Lower(word), "-security") <==> SecurityWord(word) {
        SecurityWordExactly(word);
      }
      forall word: string
        ensures word in Segments(s) <==> WordAt(s, 0, word) || exists i: nat :: LaterAt(s, i, word)
      {
        SegmentsExactly(s, word);
      }
      assert forall i: nat, word: string :: LaterAt(s, i, word) ==> WordAt(s, i, word) by { LaterStands(s); }
    }
  }

  lemma LaterStands(s: string)
    ensures forall i: nat, word: string :: LaterAt(s, i, word) ==> WordAt(s, i, word)
  {
  }

  // ----- the native architecture

  predicate OnlyLine(lines: seq<string>, i: nat, text: string)
    requires i < |lines|
  {
    Strip(lines[i]) == text && forall j | 0 <= j < |lines| && j != i :: Strip(lines[j]) == ""
  }

  lemma {:induction false} NonBlankExactly(lines: seq<string>, text: string)
    requires text != ""
    ensures NonBlank(lines) == [] <==> forall i | 0 <= i < |lines| :: Strip(lines[i]) == ""
    ensures NonBlank(lines) == [text] <==> exists i | 0 <= i < |lines| :: OnlyLine(lines, i, text)
  {
    hide Strip;
    if lines != [] {
      var rest := lines[1..];
      NonBlankExactly(rest, text);
      assert forall i | 0 <= i < |rest| :: rest[i] == lines[i + 1];
      if Strip(lines[0]) == "" {
        assert forall i | 0 <= i < |rest| :: OnlyLine(rest, i, text) <==> OnlyLine(lines, i + 1, text);
        assert forall i | 0 < i < |lines| :: OnlyLine(lines, i, text) ==> OnlyLine(rest, i - 1, text);
      } else {
        assert NonBlank(lines) == [Strip(lines[0])] + NonBlank(rest);
        assert forall i | 0 < i < |lines| :: !OnlyLine(lines, i, text);
        assert OnlyLine(lines, 0, text) <==> Strip(lines[0]) == text && NonBlank(rest) == [] by {
          assert forall j | 0 < j < |lines| :: lines[j] == rest[j - 1];
        }
        if NonBlank(lines) == [text] {
          assert NonBlank(lines)[0] == Strip(lines[0]) && NonBlank(lines)[1..] == NonBlank(rest);
          assert OnlyLine(lines, 0, text);
        }
        if OnlyLine(lines, 0, text) {
          assert NonBlank(lines) == [text];
        }
      }
    }
  }

  /** The native architecture is the one line that is not blank, if it is an architecture name other than "all". */
  lemma NativeExactly(lines: seq<string>, size: nat, architecture: string)
    ensures ReadNative(lines, size) == Some(architecture) <==>
      size <= 4096 && Hyphenated(architecture) && architecture != "all"
      && exists i | 0 <= i < |lines| :: OnlyLine(lines, i, architecture)
  {
    hide OnlyLine, NonBlank;
    ArchitectureExactly(architecture);
    if architecture != "" {
      NonBlankExactly(lines, architecture);
    }
  }

  // ----- installed identities

  /** The architecture of this identity, and no other one it could have, is installed. */
  predicate OnlyInstalled(name: string, qualified: Option<string>, native: string, installed: Inventory, architecture: string) {
    && (name, architecture) in installed
    && (qualified.Some? ==> architecture == qualified.value)
    && (qualified.None? ==>
      native != "all"
      && ((architecture == native && (name, "all") !in installed) || (architecture == "all" && (name, native) !in installed)))
  }

  /** A package is resolved exactly when one and only one of the identities it can mean is installed. */
  lemma ResolveExactly(name: string, qualified: Option<string>, native: string, installed: Inventory, architecture: string)
    ensures Resolve(name, qualified, native, installed) == Some(architecture)
      <==> OnlyInstalled(name, qualified, native, installed, architecture)
  {
  }

  // ----- rows of the inventory

  function Joined(fields: seq<string>, sep: char): string
    requires fields != []
  {
    if |fields| == 1 then fields[0] else fields[0] + [sep] + Joined(fields[1..], sep)
  }

  lemma {:induction false} SplitJoins(s: string, sep: char)
    ensures Joined(Split(s, sep), sep) == s && forall f | f in Split(s, sep) :: sep !in f
  {
    if s != "" {
      var rest := Split(s[1..], sep);
      SplitJoins(s[1..], sep);
      if s[0] == sep {
        assert ([""] + rest)[1..] == rest;
      } else {
        var first := [s[0]] + rest[0];
        assert ([first] + rest[1..])[1..] == rest[1..];
        assert sep !in rest[0];
      }
    }
  }

  function RowText(row: Row): string {
    row.name + "\t" + (row.architecture + "\t" + (row.version + "\t" + row.status))
  }

  predicate RowOk(row: Row) {
    && '\t' !in row.name && '\t' !in row.architecture && '\t' !in row.version
    && (row.status == "installed" || row.status == "not-installed" || row.status == "config-files"
        || row.status == "half-installed" || row.status == "unpacked" || row.status == "half-configured"
        || row.status == "triggers-awaited" || row.status == "triggers-pending")
  }

  lemma RowOkExactly(row: Row)
    ensures RowOk(row) <==>
      '\t' !in row.name && '\t' !in row.architecture && '\t' !in row.version && row.status in STATUS_WORDS
  {
  }

  lemma FourFields(a: string, b: string, c: string, d: string)
    requires '\t' !in a && '\t' !in b && '\t' !in c && '\t' !in d
    ensures Split(a + "\t" + (b + "\t" + (c + "\t" + d)), '\t') == [a, b, c, d]
  {
    hide Split;
    SplitFirst(a, b + "\t" + (c + "\t" + d), '\t');
    SplitFirst(b, c + "\t" + d, '\t');
    SplitFirst(c, d, '\t');
    SplitLast(d, '\t');
  }

  /** An inventory line is read as these four fields exactly when it is them between tabs, with one of dpkg's words last. */
  lemma RowReadsBack(line: string, row: Row)
    ensures RowOf(line) == Some(row) <==> RowOk(row) && line == RowText(row)
  {
    hide Split, RowOk, STATUS_WORDS;
    RowOkExactly(row);
    var fields := Split(line, '\t');
    SplitJoins(line, '\t');
    if RowOf(line) == Some(row) {
      assert fields[0] in fields && fields[1] in fields && fields[2] in fields;
      JoinedFour(fields);
    }
    if RowOk(row) && line == RowText(row) {
      StatusHasNoTab(row.status);
      FourFields(row.name, row.architecture, row.version, row.status);
    }
  }

  lemma JoinedFour(fields: seq<string>)
    requires |fields| == 4
    ensures Joined(fields, '\t') == fields[0] + "\t" + (fields[1] + "\t" + (fields[2] + "\t" + fields[3]))
  {
    assert Joined(fields[3..], '\t') == fields[3];
    assert fields[2..][1..] == fields[3..] && fields[1..][1..] == fields[2..];
    assert Joined(fields[2..], '\t') == fields[2] + "\t" + fields[3];
    assert Joined(fields[1..], '\t') == fields[1] + "\t" + Joined(fields[2..], '\t');
  }
}
