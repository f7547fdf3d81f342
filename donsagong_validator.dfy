/** The Donsagong purity checker (`DonsagongValidator`): it scores text files for terms of
    traditional saju theory that the Donsagong method forbids, lists the directory's
    scanned files, summarises the scores in a report, and rewrites forbidden terms in
    place. Reading and writing files are parameters: a read is a `Result<string>`, a
    write is returned as the content it would store. */
module DonsagongValidator {
  import opened Common

  /** A forbidden term with the category it is listed under. */
  type Entry = (string, string)

  /** `forbidden_terms`, category by category. */
  const ForbiddenTerms: seq<(string, seq<string>)> := [
    ("십신론", ["정관", "편관", "정재", "편재", "정인", "편인", "식신", "상관", "비견", "겁재", "건록", "제왕"]),
    ("오행론", ["목생화", "화생토", "토생금", "금생수", "수생목", "금극목", "목극토", "토극수", "수극화", "화극금",
              "상생", "상극", "생극", "극생"]),
    ("신강신약", ["신강", "신약", "일간이 강", "일간이 약", "일간 강약", "왕성", "쇠약", "태과", "불급"]),
    ("전통해석", ["부족한 오행", "오행 균형", "오행 보충", "억부", "통관", "조후용신이 부족", "년주", "4주", "사주팔자"])]

  /** One category's terms, each with the category's name. */
  function CategoryEntries(category: string, terms: seq<string>): (es: seq<Entry>)
    ensures |es| == |terms| && forall k :: 0 <= k < |terms| ==> es[k] == (category, terms[k])
  {
    seq(|terms|, k requires 0 <= k < |terms| => (category, terms[k]))
  }

  /** The table in the order the two nested loops visit it. */
  function Entries(cats: seq<(string, seq<string>)>): seq<Entry> {
    if |cats| == 0 then []
    else Entries(cats[..|cats| - 1]) + CategoryEntries(cats[|cats| - 1].0, cats[|cats| - 1].1)
  }

  /** The term `'상생'` sits in the table, under `'오행론'`. */
  lemma SangsaengIsForbidden()
    ensures |Entries(ForbiddenTerms)| == 44 && Entries(ForbiddenTerms)[22] == ("오행론", "상생")
  {
    var cats := ForbiddenTerms;
    assert cats[..0] == [] && cats[..4] == cats;
    EntriesSnoc(cats, 0);
    EntriesSnoc(cats, 1);
    EntriesSnoc(cats, 2);
    EntriesSnoc(cats, 3);
    assert |Entries(cats[..1])| == 12;
    assert Entries(cats[..2])[22] == CategoryEntries(cats[1].0, cats[1].1)[10];
    assert Entries(cats[..4])[22] == Entries(cats[..3])[22] == Entries(cats[..2])[22];
  }

  // ---------------------------------------------------------------------------------
  // Substrings: Python's `in`, `str.count` and `str.replace`

  lemma ContainsTooShort(s: string, t: string)
    requires |s| < |t|
    ensures !Contains(s, t)
    decreases |s|
  {
    if |s| > 0 {
      ContainsTooShort(s[1..], t);
    }
  }

  /** An occurrence at position `i` is an occurrence. */
  lemma {:induction false} ContainsAt(s: string, i: nat, t: string)
    requires i + |t| <= |s| && s[i..i + |t|] == t
    ensures Contains(s, t)
    decreases i
  {
    if i > 0 {
      assert s[1..][i - 1..i - 1 + |t|] == t;
      ContainsAt(s[1..], i - 1, t);
    } else {
      assert s[..|t|] == s[0..|t|];
    }
  }

  /** An occurrence is kept by appending text after it... */
  lemma {:induction false} ContainsPrefix(a: string, b: string, t: string)
    ensures Contains(a, t) ==> Contains(a + b, t)
    decreases |a|
  {
    if |t| <= |a| && a[..|t|] == t {
      assert (a + b)[..|t|] == t;
    } else if |a| > 0 {
      ContainsPrefix(a[1..], b, t);
      assert (a + b)[1..] == a[1..] + b;
    }
  }

  /** ...and by putting text before it. */
  lemma {:induction false} ContainsSuffix(a: string, b: string, t: string)
    ensures Contains(b, t) ==> Contains(a + b, t)
    decreases |a|
  {
    if |a| > 0 {
      ContainsSuffix(a[1..], b, t);
      assert (a + b)[1..] == a[1..] + b;
    } else {
      assert a + b == b;
    }
  }

  /** An occurrence inside a slice is an occurrence in the whole. */
  lemma ContainsSlice(s: string, i: nat, j: nat, t: string)
    requires i <= j <= |s|
    ensures Contains(s[i..j], t) ==> Contains(s, t)
  {
    assert s == s[..i] + s[i..j] + s[j..];
    ContainsSuffix(s[..i], s[i..j], t);
    ContainsPrefix(s[..i] + s[i..j], s[j..], t);
  }

  /** `s.count(t)`: non-overlapping occurrences, scanned from the left; the empty string
      occurs `len(s) + 1` times. */
  function Count(s: string, t: string): nat
    decreases |s|
  {
    if |t| == 0 then |s| + 1
    else if |s| < |t| then 0
    else if s[..|t|] == t then 1 + Count(s[|t|..], t)
    else Count(s[1..], t)
  }

  /** A term is counted at least once exactly when it occurs. */
  lemma {:induction false} CountPositiveIffContains(s: string, t: string)
    ensures Count(s, t) > 0 <==> Contains(s, t)
    decreases |s|
  {
    if |t| == 0 {
    } else if |s| < |t| {
      ContainsTooShort(s, t);
    } else if s[..|t|] != t {
      CountPositiveIffContains(s[1..], t);
    }
  }

  /** `s.replace(old, new)`: every non-overlapping occurrence, from the left, is replaced;
      an empty `old` puts `new` around every character. */
  function ReplaceAll(s: string, target: string, replacement: string): string
    decreases |s|
  {
    if |target| == 0 then (if |s| == 0 then replacement else replacement + [s[0]] + ReplaceAll(s[1..], target, replacement))
    else if |s| < |target| then s
    else if s[..|target|] == target then replacement + ReplaceAll(s[|target|..], target, replacement)
    else [s[0]] + ReplaceAll(s[1..], target, replacement)
  }

  /** A replacement that itself contains the replaced term leaves the term in the text. */
  lemma {:induction false} ReplaceKeepsTerm(s: string, target: string, replacement: string)
    requires Contains(replacement, target)
    ensures Contains(s, target) ==> Contains(ReplaceAll(s, target, replacement), target)
    decreases |s|
  {
    if |target| == 0 {
      assert ReplaceAll(s, target, replacement)[..0] == target;
    } else if |s| < |target| {
      ContainsTooShort(s, target);
    } else if s[..|target|] == target {
      ContainsPrefix(replacement, ReplaceAll(s[|target|..], target, replacement), target);
    } else {
      ReplaceKeepsTerm(s[1..], target, replacement);
      ContainsSuffix([s[0]], ReplaceAll(s[1..], target, replacement), target);
    }
  }

  // ---------------------------------------------------------------------------------
  // The suspicious patterns: `re.search` on literal parts joined by `.*`

  /** A pattern: its literal parts (the regular expression joins them with `.*`) and the
      warning it raises. */
  type Pattern = (seq<string>, string)

  const SuspiciousPatterns: seq<Pattern> := [
    (["부족", "보충"], "부족을 보충하는 개념 발견"),
    (["균형", "맞추"], "균형을 맞추는 개념 발견"),
    (["상생", "관계"], "오행 상생 관계 언급"),
    (["년", "월", "일", "시"], "4주 체계 언급 가능성")]

  predicate OccursAt(s: string, i: int, t: string) {
    0 <= i && i + |t| <= |s| && s[i..i + |t|] == t
  }

  /** The parts occur in `s` in order, without overlapping. */
  predicate InOrder(s: string, parts: seq<string>)
    decreases |parts|
  {
    |parts| == 0 ||
    exists i :: 0 <= i <= |s| && OccursAt(s, i, parts[0]) && InOrder(s[i + |parts[0]|..], parts[1..])
  }

  predicate NoNewline(s: string) {
    forall k :: 0 <= k < |s| ==> s[k] != '\n'
  }

  /** `re.search` of the parts joined by `.*`: some stretch of a single line (`.` does not
      match a newline) holds the parts in order. */
  predicate RegexSearch(s: string, parts: seq<string>) {
    exists i, j :: 0 <= i <= j <= |s| && NoNewline(s[i..j]) && InOrder(s[i..j], parts)
  }

  /** A pattern can only match where its first part occurs. */
  lemma MatchHasFirstPart(s: string, parts: seq<string>)
    requires |parts| > 0
    ensures RegexSearch(s, parts) ==> Contains(s, parts[0])
  {
    if RegexSearch(s, parts) {
      var i, j :| 0 <= i <= j <= |s| && NoNewline(s[i..j]) && InOrder(s[i..j], parts);
      var line := s[i..j];
      var k :| 0 <= k <= |line| && OccursAt(line, k, parts[0]) && InOrder(line[k + |parts[0]|..], parts[1..]);
      ContainsAt(line, k, parts[0]);
      ContainsSlice(s, i, j, parts[0]);
    }
  }

  // ---------------------------------------------------------------------------------
  // `scan_file`

  /** A forbidden term found in a file, with its number of occurrences. */
  datatype Found = Found(category: string, term: string, count: nat)

  /** The forbidden terms present in `content`, in table order. */
  function FoundIn(es: seq<Entry>, content: string): (f: seq<Found>)
    ensures |f| <= |es|
  {
    if |es| == 0 then []
    else
      var prev := FoundIn(es[..|es| - 1], content);
      var e := es[|es| - 1];
      if Contains(content, e.1) then prev + [Found(e.0, e.1, Count(content, e.1))] else prev
  }

  /** The warnings of the patterns that match, in pattern order. */
  function WarningsIn(ps: seq<Pattern>, content: string): (w: seq<string>)
    ensures |w| <= |ps|
  {
    if |ps| == 0 then []
    else
      var prev := WarningsIn(ps[..|ps| - 1], content);
      if RegexSearch(content, ps[|ps| - 1].0) then prev + [ps[|ps| - 1].1] else prev
  }

  /** A scan's result dict; `error` is set when the file could not be read. */
  datatype ScanResult = ScanResult(file: string, forbiddenFound: seq<Found>, warnings: seq<string>, score: int, error: Option<string>)

  /** `scan_file(filepath)` on the file's read outcome: 100, less 10 for each forbidden
      term present (however often) and 5 for each matching pattern, at least 0; an
      unreadable file scores 0. */
  function Scan(es: seq<Entry>, ps: seq<Pattern>, file: string, read: Result<string>): (r: ScanResult)
    ensures 0 <= r.score <= 100 && r.file == file
    ensures read.Err? ==> r.score == 0 && r.error == Some(read.msg) && r.forbiddenFound == [] && r.warnings == []
  {
    match read
    case Err(e) => ScanResult(file, [], [], 0, Some(e))
    case Ok(content) =>
      var f := FoundIn(es, content);
      var w := WarningsIn(ps, content);
      var score := 100 - 10 * |f| - 5 * |w|;
      ScanResult(file, f, w, if score < 0 then 0 else score, None)
  }

  /** Taking the next entry of the table. */
  lemma FoundInSnoc(es: seq<Entry>, e: Entry, content: string)
    ensures FoundIn(es + [e], content)
            == if Contains(content, e.1) then FoundIn(es, content) + [Found(e.0, e.1, Count(content, e.1))] else FoundIn(es, content)
  {
    assert (es + [e])[..|es|] == es;
  }

  lemma EntriesSnoc(cats: seq<(string, seq<string>)>, c: nat)
    requires c < |cats|
    ensures Entries(cats[..c + 1]) == Entries(cats[..c]) + CategoryEntries(cats[c].0, cats[c].1)
  {
    assert cats[..c + 1][..c] == cats[..c];
  }

  lemma CategoryEntriesSnoc(category: string, terms: seq<string>, k: nat)
    requires k < |terms|
    ensures CategoryEntries(category, terms[..k + 1]) == CategoryEntries(category, terms[..k]) + [(category, terms[k])]
  {
  }

  /** The two nested loops over the table and the loop over the patterns, on text that was
      read; the score is not yet floored. */
  method ScanContent(cats: seq<(string, seq<string>)>, ps: seq<Pattern>, content: string)
    returns (found: seq<Found>, warnings: seq<string>, score: int)
    ensures found == FoundIn(Entries(cats), content)
    ensures warnings == WarningsIn(ps, content)
    ensures score == 100 - 10 * |found| - 5 * |warnings|
  {
    found, warnings, score := [], [], 100;
    for c := 0 to |cats|
      invariant found == FoundIn(Entries(cats[..c]), content)
      invariant score == 100 - 10 * |found|
    {
      var (category, terms) := cats[c];
      assert Entries(cats[..c]) + CategoryEntries(category, terms[..0]) == Entries(cats[..c]);
      for k := 0 to |terms|
        invariant found == FoundIn(Entries(cats[..c]) + CategoryEntries(category, terms[..k]), content)
        invariant score == 100 - 10 * |found|
      {
        var term := terms[k];
        CategoryEntriesSnoc(category, terms, k);
        assert Entries(cats[..c]) + CategoryEntries(category, terms[..k + 1])
            == (Entries(cats[..c]) + CategoryEntries(category, terms[..k])) + [(category, term)];
        FoundInSnoc(Entries(cats[..c]) + CategoryEntries(category, terms[..k]), (category, term), content);
        if Contains(content, term) {
          found := found + [Found(category, term, Count(content, term))];
          score := score - 10;
        }
      }
      assert terms[..|terms|] == terms;
      EntriesSnoc(cats, c);
    }
    assert cats[..|cats|] == cats;
    for i := 0 to |ps|
      invariant warnings == WarningsIn(ps[..i], content)
      invariant score == 100 - 10 * |found| - 5 * |warnings|
    {
      assert ps[..i + 1][..i] == ps[..i];
      var (pattern, warning) := ps[i];
      if RegexSearch(content, pattern) {
        warnings := warnings + [warning];
        score := score - 5;
      }
    }
    assert ps[..|ps|] == ps;
  }

  /** `scan_file` (the timestamp is left out). */
  method ScanFile(file: string, read: Result<string>) returns (r: ScanResult)
    ensures r == Scan(Entries(ForbiddenTerms), SuspiciousPatterns, file, read)
  {
    if read.Err? {
      return ScanResult(file, [], [], 0, Some(read.msg));
    }
    var found, warnings, score := ScanContent(ForbiddenTerms, SuspiciousPatterns, read.value);
    r := ScanResult(file, found, warnings, if score < 0 then 0 else score, None);
  }

  /** A term is reported exactly when it occurs, once per table entry, with its category
      and its occurrence count (at least one). */
  lemma {:induction false} FoundInSpec(es: seq<Entry>, content: string)
    ensures forall x :: x in FoundIn(es, content) <==>
              exists k :: 0 <= k < |es| && Contains(content, es[k].1) && x == Found(es[k].0, es[k].1, Count(content, es[k].1))
    ensures forall x :: x in FoundIn(es, content) ==> x.count > 0
  {
    if |es| > 0 {
      var p := es[..|es| - 1];
      FoundInSpec(p, content);
      assert forall k :: 0 <= k < |p| ==> p[k] == es[k];
      var e := es[|es| - 1];
      CountPositiveIffContains(content, e.1);
    }
  }

  /** No forbidden term is reported exactly when none occurs. */
  lemma {:induction false} FoundInEmpty(es: seq<Entry>, content: string)
    ensures FoundIn(es, content) == [] <==> forall k :: 0 <= k < |es| ==> !Contains(content, es[k].1)
  {
    if |es| > 0 {
      FoundInEmpty(es[..|es| - 1], content);
      assert forall k :: 0 <= k < |es| - 1 ==> es[..|es| - 1][k] == es[k];
    }
  }

  /** A warning is raised exactly for the patterns that match. */
  lemma {:induction false} WarningsInSpec(ps: seq<Pattern>, content: string)
    ensures forall w :: w in WarningsIn(ps, content) <==>
              exists k :: 0 <= k < |ps| && RegexSearch(content, ps[k].0) && w == ps[k].1
    ensures WarningsIn(ps, content) == [] <==> forall k :: 0 <= k < |ps| ==> !RegexSearch(content, ps[k].0)
  {
    if |ps| > 0 {
      WarningsInSpec(ps[..|ps| - 1], content);
      assert forall k :: 0 <= k < |ps| - 1 ==> ps[..|ps| - 1][k] == ps[k];
    }
  }

  /** A file scores full marks exactly when it was read and holds neither a forbidden term
      nor a suspicious pattern. */
  lemma FullScoreIffClean(es: seq<Entry>, ps: seq<Pattern>, file: string, read: Result<string>)
    ensures Scan(es, ps, file, read).score == 100 <==>
              read.Ok? && (forall k :: 0 <= k < |es| ==> !Contains(read.value, es[k].1))
                       && (forall k :: 0 <= k < |ps| ==> !RegexSearch(read.value, ps[k].0))
  {
    if read.Ok? {
      FoundInEmpty(es, read.value);
      WarningsInSpec(ps, read.value);
    }
  }

  /** A text flagged for naming the generating relation (`상생.*관계`) also contains the
      forbidden term 상생, so it loses at least 15 points. */
  lemma SangsaengPenalisedTwice(file: string, content: string)
    requires RegexSearch(content, ["상생", "관계"])
    ensures Scan(Entries(ForbiddenTerms), SuspiciousPatterns, file, Ok(content)).score <= 85
  {
    var es := Entries(ForbiddenTerms);
    MatchHasFirstPart(content, ["상생", "관계"]);
    SangsaengIsForbidden();
    FoundInSpec(es, content);
    assert Found("오행론", "상생", Count(content, "상생")) in FoundIn(es, content);
    WarningsInSpec(SuspiciousPatterns, content);
    assert SuspiciousPatterns[2].1 in WarningsIn(SuspiciousPatterns, content);
  }

  // ---------------------------------------------------------------------------------
  // `validate_directory`

  /** A file met by `os.walk`: its directory, its name and what reading it gives. */
  datatype WalkedFile = WalkedFile(root: string, name: string, read: Result<string>)

  predicate EndsWith(s: string, suffix: string) {
    |suffix| <= |s| && s[|s| - |suffix|..] == suffix
  }

  /** Only Markdown, text and Python files are scanned. */
  predicate Scanned(name: string) {
    EndsWith(name, ".md") || EndsWith(name, ".txt") || EndsWith(name, ".py")
  }

  /** `os.path.join(root, name)` for a plain file name. */
  function Join(root: string, name: string): string {
    if |root| == 0 || root[|root| - 1] == '/' then root + name else root + "/" + name
  }

  /** The scans of the scanned files, in walk order. */
  function ScanAll(es: seq<Entry>, ps: seq<Pattern>, files: seq<WalkedFile>): (rs: seq<ScanResult>)
    ensures |rs| <= |files|
  {
    if |files| == 0 then []
    else
      var prev := ScanAll(es, ps, files[..|files| - 1]);
      var f := files[|files| - 1];
      if Scanned(f.name) then prev + [Scan(es, ps, Join(f.root, f.name), f.read)] else prev
  }

  /** `validate_directory`, over the files the walk meets. */
  method ValidateDirectory(files: seq<WalkedFile>) returns (results: seq<ScanResult>)
    ensures results == ScanAll(Entries(ForbiddenTerms), SuspiciousPatterns, files)
  {
    results := [];
    for i := 0 to |files|
      invariant results == ScanAll(Entries(ForbiddenTerms), SuspiciousPatterns, files[..i])
    {
      assert files[..i + 1][..i] == files[..i];
      var f := files[i];
      if Scanned(f.name) {
        var result := ScanFile(Join(f.root, f.name), f.read);
        results := results + [result];
      }
    }
    assert files[..|files|] == files;
  }

  /** Every scanned file, and nothing else, has a result. */
  lemma ScanAllSpec(es: seq<Entry>, ps: seq<Pattern>, files: seq<WalkedFile>)
    ensures forall r :: r in ScanAll(es, ps, files) <==>
              exists k :: 0 <= k < |files| && Scanned(files[k].name)
                          && r == Scan(es, ps, Join(files[k].root, files[k].name), files[k].read)
  {
    forall r
      ensures r in ScanAll(es, ps, files) <==>
              exists k :: 0 <= k < |files| && Scanned(files[k].name)
                          && r == Scan(es, ps, Join(files[k].root, files[k].name), files[k].read)
    {
      if r in ScanAll(es, ps, files) {
        var k := ScanAllWitness(es, ps, files, r);
      }
      forall k | 0 <= k < |files| && Scanned(files[k].name)
                 && r == Scan(es, ps, Join(files[k].root, files[k].name), files[k].read)
        ensures r in ScanAll(es, ps, files)
      {
        ScanAllHas(es, ps, files, k);
      }
    }
  }

  /** Every result comes from a scanned file. */
  lemma {:induction false} ScanAllWitness(es: seq<Entry>, ps: seq<Pattern>, files: seq<WalkedFile>, r: ScanResult)
    returns (k: nat)
    requires r in ScanAll(es, ps, files)
    ensures k < |files| && Scanned(files[k].name) && r == Scan(es, ps, Join(files[k].root, files[k].name), files[k].read)
  {
    var p := files[..|files| - 1];
    if r in ScanAll(es, ps, p) {
      k := ScanAllWitness(es, ps, p, r);
      assert files[k] == p[k];
    } else {
      k := |files| - 1;
    }
  }

  /** Every scanned file has its result. */
  lemma {:induction false} ScanAllHas(es: seq<Entry>, ps: seq<Pattern>, files: seq<WalkedFile>, k: nat)
    requires k < |files| && Scanned(files[k].name)
    ensures Scan(es, ps, Join(files[k].root, files[k].name), files[k].read) in ScanAll(es, ps, files)
  {
    var p := files[..|files| - 1];
    if k < |p| {
      ScanAllHas(es, ps, p, k);
      assert files[k] == p[k];
    }
  }

  // ---------------------------------------------------------------------------------
  // `generate_report`

  datatype Risk = Safe | Caution | Danger

  function RiskLabel(r: Risk): string {
    match r
    case Safe => "🟢 안전"
    case Caution => "🟡 주의"
    case Danger => "🔴 위험"
  }

  function ScoreSum(rs: seq<ScanResult>): int {
    if |rs| == 0 then 0 else ScoreSum(rs[..|rs| - 1]) + rs[|rs| - 1].score
  }

  /** The files with less than full marks, in order. */
  function Contaminated(rs: seq<ScanResult>): seq<ScanResult> {
    if |rs| == 0 then []
    else
      var prev := Contaminated(rs[..|rs| - 1]);
      if rs[|rs| - 1].score < 100 then prev + [rs[|rs| - 1]] else prev
  }

  function RiskOf(average: real): Risk {
    if average >= 90.0 then Safe else if average >= 70.0 then Caution else Danger
  }

  /** The figures the report prints: the average score, the risk level, the number of
      files and the contaminated files. */
  datatype Report = Report(average: real, risk: Risk, totalFiles: nat, contaminated: seq<ScanResult>)

  /** `generate_report`'s figures; an empty directory averages 0 and is rated dangerous. */
  function GenerateReport(rs: seq<ScanResult>): (r: Report)
    ensures r.totalFiles == |rs|
    ensures |rs| == 0 ==> r.average == 0.0 && r.risk == Danger && r.contaminated == []
  {
    var average := if |rs| > 0 then ScoreSum(rs) as real / |rs| as real else 0.0;
    Report(average, RiskOf(average), |rs|, Contaminated(rs))
  }

  predicate ScoresInRange(rs: seq<ScanResult>) {
    forall k :: 0 <= k < |rs| ==> 0 <= rs[k].score <= 100
  }

  lemma {:induction false} ScoreSumBounds(rs: seq<ScanResult>)
    requires ScoresInRange(rs)
    ensures 0 <= ScoreSum(rs) <= 100 * |rs|
    ensures (forall k :: 0 <= k < |rs| ==> rs[k].score == 100) ==> ScoreSum(rs) == 100 * |rs|
  {
    if |rs| > 0 {
      ScoreSumBounds(rs[..|rs| - 1]);
    }
  }

  /** With every score in range, the average lies in [0, 100]; when every file scores full
      marks, the directory is safe and nothing is listed as contaminated. */
  lemma ReportBounds(rs: seq<ScanResult>)
    requires ScoresInRange(rs)
    ensures 0.0 <= GenerateReport(rs).average <= 100.0
    ensures |rs| > 0 && (forall k :: 0 <= k < |rs| ==> rs[k].score == 100) ==>
              GenerateReport(rs).average == 100.0 && GenerateReport(rs).risk == Safe && GenerateReport(rs).contaminated == []
  {
    ScoreSumBounds(rs);
    ContaminatedNone(rs);
    if |rs| > 0 {
      AverageBounds(ScoreSum(rs), |rs|);
    }
  }

  lemma AverageBounds(sum: int, n: nat)
    requires 0 < n && 0 <= sum <= 100 * n
    ensures 0.0 <= sum as real / n as real <= 100.0
    ensures sum == 100 * n ==> sum as real / n as real == 100.0
  {
    var a := sum as real / n as real;
    assert a * n as real == sum as real;
  }

  lemma {:induction false} ContaminatedNone(rs: seq<ScanResult>)
    ensures (forall k :: 0 <= k < |rs| ==> rs[k].score == 100) ==> Contaminated(rs) == []
  {
    if |rs| > 0 {
      ContaminatedNone(rs[..|rs| - 1]);
    }
  }

  /** A file is listed as contaminated exactly when it scored under 100. */
  lemma {:induction false} ContaminatedSpec(rs: seq<ScanResult>)
    ensures forall r :: r in Contaminated(rs) <==> r in rs && r.score < 100
  {
    if |rs| > 0 {
      ContaminatedSpec(rs[..|rs| - 1]);
      assert rs == rs[..|rs| - 1] + [rs[|rs| - 1]];
    }
  }

  // ---------------------------------------------------------------------------------
  // `auto_clean`

  /** `f"[{term} 제거됨]"`. */
  function Marker(term: string): string {
    "[" + term + " 제거됨]"
  }

  lemma MarkerContainsTerm(term: string)
    ensures Contains(Marker(term), term)
  {
    assert term[..|term|] == term;
    ContainsPrefix(term, " 제거됨]", term);
    ContainsSuffix("[", term + " 제거됨]", term);
    assert "[" + term + " 제거됨]" == "[" + (term + " 제거됨]");
  }

  /** The text after the loop has visited the entries `es`. */
  function CleanAll(es: seq<Entry>, content: string): string {
    if |es| == 0 then content
    else
      var prev := CleanAll(es[..|es| - 1], content);
      var term := es[|es| - 1].1;
      if Contains(prev, term) then ReplaceAll(prev, term, Marker(term)) else prev
  }

  /** Whether some entry was present in the text when the loop reached it. */
  function CleanedFlag(es: seq<Entry>, content: string): bool {
    if |es| == 0 then false
    else CleanedFlag(es[..|es| - 1], content) || Contains(CleanAll(es[..|es| - 1], content), es[|es| - 1].1)
  }

  /** The text is rewritten exactly when some forbidden term occurs in it; otherwise it is
      left as it was. */
  lemma {:induction false} CleanedIffPresent(es: seq<Entry>, content: string)
    ensures CleanedFlag(es, content) <==> exists k :: 0 <= k < |es| && Contains(content, es[k].1)
    ensures !CleanedFlag(es, content) ==> CleanAll(es, content) == content
  {
    if |es| > 0 {
      CleanedIffPresent(es[..|es| - 1], content);
      assert forall k :: 0 <= k < |es| - 1 ==> es[..|es| - 1][k] == es[k];
    }
  }

  /** The marker repeats the term it replaces, so a rewritten text still holds a forbidden
      term. */
  lemma {:induction false} CleanedStillForbidden(es: seq<Entry>, content: string)
    ensures CleanedFlag(es, content) ==> exists k :: 0 <= k < |es| && Contains(CleanAll(es, content), es[k].1)
  {
    if |es| > 0 {
      var p := es[..|es| - 1];
      var term := es[|es| - 1].1;
      CleanedStillForbidden(p, content);
      assert forall k :: 0 <= k < |p| ==> p[k] == es[k];
      MarkerContainsTerm(term);
      ReplaceKeepsTerm(CleanAll(p, content), term, Marker(term));
    }
  }

  /** What `auto_clean` returns, and the backup and the new content it writes. */
  datatype CleanOutcome = CleanOutcome(cleaned: bool, message: string, backup: Option<(string, string)>, written: Option<string>)

  /** `auto_clean(filepath)` on the file's read outcome. */
  function AutoClean(es: seq<Entry>, path: string, read: Result<string>): CleanOutcome {
    match read
    case Err(e) => CleanOutcome(false, "오류 발생: " + e, None, None)
    case Ok(content) =>
      if CleanedFlag(es, content) then
        CleanOutcome(true, "정화 완료. 백업: " + path + ".backup", Some((path + ".backup", content)), Some(CleanAll(es, content)))
      else CleanOutcome(false, "정화 불필요 (이미 깨끗함)", None, None)
  }

  /** The rewriting loops of `auto_clean`. */
  method CleanContent(cats: seq<(string, seq<string>)>, original: string) returns (content: string, cleaned: bool)
    ensures content == CleanAll(Entries(cats), original)
    ensures cleaned == CleanedFlag(Entries(cats), original)
  {
    content, cleaned := original, false;
    for c := 0 to |cats|
      invariant content == CleanAll(Entries(cats[..c]), original)
      invariant cleaned == CleanedFlag(Entries(cats[..c]), original)
    {
      var (category, terms) := cats[c];
      assert Entries(cats[..c]) + CategoryEntries(category, terms[..0]) == Entries(cats[..c]);
      for k := 0 to |terms|
        invariant content == CleanAll(Entries(cats[..c]) + CategoryEntries(category, terms[..k]), original)
        invariant cleaned == CleanedFlag(Entries(cats[..c]) + CategoryEntries(category, terms[..k]), original)
      {
        var term := terms[k];
        ghost var es := Entries(cats[..c]) + CategoryEntries(category, terms[..k]);
        CategoryEntriesSnoc(category, terms, k);
        assert Entries(cats[..c]) + CategoryEntries(category, terms[..k + 1]) == es + [(category, term)];
        assert (es + [(category, term)])[..|es|] == es;
        if Contains(content, term) {
          content := ReplaceAll(content, term, Marker(term));
          cleaned := true;
        }
      }
      assert terms[..|terms|] == terms;
      EntriesSnoc(cats, c);
    }
    assert cats[..|cats|] == cats;
  }

  /** `auto_clean` (a failing write is left out). */
  method AutoCleanFile(path: string, read: Result<string>) returns (o: CleanOutcome)
    ensures o == AutoClean(Entries(ForbiddenTerms), path, read)
  {
    if read.Err? {
      return CleanOutcome(false, "오류 발생: " + read.msg, None, None);
    }
    var content, cleaned := CleanContent(ForbiddenTerms, read.value);
    if cleaned {
      var backupPath := path + ".backup";
      o := CleanOutcome(true, "정화 완료. 백업: " + backupPath, Some((backupPath, read.value)), Some(content));
    } else {
      o := CleanOutcome(false, "정화 불필요 (이미 깨끗함)", None, None);
    }
  }

  /** `auto_clean` writes (backup holding the original, then the new text) exactly when a
      forbidden term occurs, and the text it writes still fails the scan. */
  lemma AutoCleanSpec(es: seq<Entry>, ps: seq<Pattern>, path: string, read: Result<string>)
    ensures var o := AutoClean(es, path, read);
            (o.cleaned <==> read.Ok? && exists k :: 0 <= k < |es| && Contains(read.value, es[k].1))
            && (o.cleaned <==> o.written.Some?)
            && (o.cleaned ==> o.backup == Some((path + ".backup", read.value))
                              && Scan(es, ps, path, Ok(o.written.value)).score <= 90)
  {
    if read.Ok? {
      var content := read.value;
      CleanedIffPresent(es, content);
      if CleanedFlag(es, content) {
        CleanedStillForbidden(es, content);
        var cleanedText := CleanAll(es, content);
        var k :| 0 <= k < |es| && Contains(cleanedText, es[k].1);
        FoundInSpec(es, cleanedText);
        assert Found(es[k].0, es[k].1, Count(cleanedText, es[k].1)) in FoundIn(es, cleanedText);
      }
    }
  }
}
