/**
 * diagram_summary.py: the listing of the diagram directory, kept to PNG
 * and PDF names and sorted, the classification of each name into one of
 * four groups by the substrings of its lower-cased form, and the report
 * of the non-empty groups in a fixed order.  The directory's existence,
 * its listing and the file sizes are given as values.
 */
module DiagramSummary {
  import opened Wrappers
  import opened Labels

  // ----- the listing ----------------------------------------------------------

  /** `f.endswith(('.png', '.pdf'))`. */
  predicate IsDiagramFile(f: string) {
    EndsWith(f, ".png") || EndsWith(f, ".pdf")
  }

  /** The list comprehension over the directory listing. */
  function DiagramFiles(listing: seq<string>): (r: seq<string>)
    ensures |r| <= |listing|
    ensures forall f :: f in r <==> f in listing && IsDiagramFile(f)
  {
    if |listing| == 0 then []
    else (if IsDiagramFile(listing[0]) then [listing[0]] else []) + DiagramFiles(listing[1..])
  }

  /** Python's string order: code point by code point, a proper prefix
      first. */
  predicate LexLe(a: string, b: string)
    decreases |a|
  {
    |a| == 0 || (|b| > 0 && (a[0] < b[0] || (a[0] == b[0] && LexLe(a[1..], b[1..]))))
  }

  lemma {:induction false} LexLeTotal(a: string, b: string)
    ensures LexLe(a, b) || LexLe(b, a)
    decreases |a|
  {
    if |a| > 0 && |b| > 0 && a[0] == b[0] {
      LexLeTotal(a[1..], b[1..]);
    }
  }

  lemma {:induction false} LexLeTransitive(a: string, b: string, c: string)
    requires LexLe(a, b) && LexLe(b, c)
    ensures LexLe(a, c)
    decreases |a|
  {
    if |a| > 0 && a[0] == b[0] && b[0] == c[0] {
      LexLeTransitive(a[1..], b[1..], c[1..]);
    }
  }

  predicate Sorted(s: seq<string>) {
    forall i, j :: 0 <= i < j < |s| ==> LexLe(s[i], s[j])
  }

  /** Places x before the first element it does not exceed. */
  function Insert(x: string, s: seq<string>): (r: seq<string>)
    ensures multiset(r) == multiset(s) + multiset{x}
  {
    if |s| == 0 then [x]
    else if LexLe(x, s[0]) then [x] + s
    else
      assert s == [s[0]] + s[1..];
      [s[0]] + Insert(x, s[1..])
  }

  lemma {:induction false} InsertSorted(x: string, s: seq<string>)
    requires Sorted(s)
    ensures Sorted(Insert(x, s))
  {
    if |s| == 0 {
    } else if LexLe(x, s[0]) {
      ConsSorted(x, s);
    } else {
      LexLeTotal(x, s[0]);
      InsertSorted(x, s[1..]);
      HeadBelowInsert(x, s);
      ConsSorted(s[0], Insert(x, s[1..]));
    }
  }

  /** A name no greater than the first of a sorted list goes in front. */
  lemma ConsSorted(h: string, rest: seq<string>)
    requires Sorted(rest)
    requires |rest| > 0 ==> LexLe(h, rest[0])
    ensures Sorted([h] + rest)
  {
    var r := [h] + rest;
    forall i, j | 0 <= i < j < |r| ensures LexLe(r[i], r[j]) {
      if i > 0 {
        assert r[i] == rest[i - 1] && r[j] == rest[j - 1];
      } else if j > 1 {
        assert r[j] == rest[j - 1];
        LexLeTransitive(h, rest[0], rest[j - 1]);
      }
    }
  }

  /** The head of a sorted list, below x, is below the first of the tail
      with x inserted. */
  lemma HeadBelowInsert(x: string, s: seq<string>)
    requires Sorted(s) && |s| > 0 && LexLe(s[0], x)
    ensures |Insert(x, s[1..])| > 0 && LexLe(s[0], Insert(x, s[1..])[0])
  {
    var rest := Insert(x, s[1..]);
    assert |rest| == |s| by {
      assert |multiset(rest)| == |multiset(s[1..])| + 1;
    }
    var k := rest[0];
    assert k in multiset(rest);
    if k != x {
      assert k in multiset(s[1..]);
      var m :| 0 <= m < |s[1..]| && s[1..][m] == k;
      assert s[m + 1] == k;
    }
  }

  /** `files.sort()`: the names in ascending order. */
  method SortNames(names: seq<string>) returns (sorted: seq<string>)
    ensures Sorted(sorted)
    ensures multiset(sorted) == multiset(names)
  {
    sorted := [];
    var i := 0;
    while i < |names|
      invariant 0 <= i <= |names|
      invariant Sorted(sorted)
      invariant multiset(sorted) == multiset(names[..i])
    {
      InsertSorted(names[i], sorted);
      sorted := Insert(names[i], sorted);
      assert names[..i + 1] == names[..i] + [names[i]];
      i := i + 1;
    }
    assert names[..|names|] == names;
  }

  // ----- classification -----------------------------------------------------

  /** `str.lower()` on ASCII letters. */
  function Lower(s: string): (r: string)
    ensures |r| == |s|
    ensures forall i :: 0 <= i < |s| ==> r[i] == LowerChar(s[i])
  {
    seq(|s|, i requires 0 <= i < |s| => LowerChar(s[i]))
  }

  datatype Group = Erd | Uml | Sequence | Architecture

  /** The group a name goes to, first match wins on the lower-cased name:
      `erd`, then `uml` or `class`, then `sequence`, then `architecture`;
      a name matching none is not listed. */
  function Classify(f: string): (g: Option<Group>)
    ensures g == Some(Erd) <==> Contains(Lower(f), "erd")
    ensures g == Some(Uml) <==>
      !Contains(Lower(f), "erd") && (Contains(Lower(f), "uml") || Contains(Lower(f), "class"))
    ensures g == Some(Sequence) <==>
      !Contains(Lower(f), "erd") && !Contains(Lower(f), "uml") && !Contains(Lower(f), "class") &&
      Contains(Lower(f), "sequence")
    ensures g == None <==>
      !Contains(Lower(f), "erd") && !Contains(Lower(f), "uml") && !Contains(Lower(f), "class") &&
      !Contains(Lower(f), "sequence") && !Contains(Lower(f), "architecture")
  {
    var l := Lower(f);
    if Contains(l, "erd") then Some(Erd)
    else if Contains(l, "uml") || Contains(l, "class") then Some(Uml)
    else if Contains(l, "sequence") then Some(Sequence)
    else if Contains(l, "architecture") then Some(Architecture)
    else None
  }

  /** The four group lists. */
  datatype Groups = Groups(erd: seq<string>, uml: seq<string>, sequence: seq<string>, architecture: seq<string>)
  {
    function Get(g: Group): seq<string> {
      match g
      case Erd => erd
      case Uml => uml
      case Sequence => sequence
      case Architecture => architecture
    }
  }

  /** The names of `files` that go to group g, in their order. */
  function Members(files: seq<string>, g: Group): (r: seq<string>)
    ensures |r| <= |files|
  {
    if |files| == 0 then []
    else
      var last := files[|files| - 1];
      Members(files[..|files| - 1], g) + (if Classify(last) == Some(g) then [last] else [])
  }

  /** A name is in a group exactly when it is one of the files and
      classifies there; so every file lands in at most one group and the
      groups hold only files. */
  lemma {:induction false} MembersExactly(files: seq<string>, g: Group)
    ensures forall f :: f in Members(files, g) <==> f in files && Classify(f) == Some(g)
  {
    if |files| > 0 {
      var init := files[..|files| - 1];
      MembersExactly(init, g);
      assert files == init + [files[|files| - 1]];
    }
  }

  lemma AtMostOneGroup(files: seq<string>, f: string, g1: Group, g2: Group)
    requires f in Members(files, g1) && f in Members(files, g2)
    ensures g1 == g2
  {
    MembersExactly(files, g1);
    MembersExactly(files, g2);
  }

  /** A group of a sorted list is itself sorted. */
  lemma {:induction false} MembersSorted(files: seq<string>, g: Group)
    requires Sorted(files)
    ensures Sorted(Members(files, g))
  {
    if |files| > 0 {
      var init := files[..|files| - 1];
      var last := files[|files| - 1];
      MembersSorted(init, g);
      MembersExactly(init, g);
      var m := Members(init, g);
      if Classify(last) == Some(g) {
        var r := m + [last];
        forall i, j | 0 <= i < j < |r| ensures LexLe(r[i], r[j]) {
          if j == |m| {
            assert m[i] in init;
            var k :| 0 <= k < |init| && init[k] == m[i];
            assert files[k] == m[i];
          } else {
            assert r[i] == m[i] && r[j] == m[j];
          }
        }
      }
    }
  }

  /** The grouping loop: each file is appended to the list of its group. */
  method GroupFiles(files: seq<string>) returns (groups: Groups)
    ensures groups.erd == Members(files, Erd) && groups.uml == Members(files, Uml)
    ensures groups.sequence == Members(files, Sequence) && groups.architecture == Members(files, Architecture)
  {
    groups := Groups([], [], [], []);
    var i := 0;
    while i < |files|
      invariant 0 <= i <= |files|
      invariant groups.erd == Members(files[..i], Erd) && groups.uml == Members(files[..i], Uml)
      invariant groups.sequence == Members(files[..i], Sequence)
      invariant groups.architecture == Members(files[..i], Architecture)
    {
      var file := files[i];
      assert files[..i + 1][..i] == files[..i];
      match Classify(file) {
        case Some(Erd) => groups := groups.(erd := groups.erd + [file]);
        case Some(Uml) => groups := groups.(uml := groups.uml + [file]);
        case Some(Sequence) => groups := groups.(sequence := groups.sequence + [file]);
        case Some(Architecture) => groups := groups.(architecture := groups.architecture + [file]);
        case None =>
      }
      i := i + 1;
    }
    assert files[..|files|] == files;
  }

  // ----- the report ----------------------------------------------------------

  function Title(g: Group): string {
    match g
    case Erd => "ERD (Entity Relationship Diagrams)"
    case Uml => "UML (Class Diagrams)"
    case Sequence => "Sequence Diagrams"
    case Architecture => "System Architecture"
  }

  /** The position of a group in the dictionary, and so in the report. */
  function Rank(g: Group): nat {
    match g
    case Erd => 0
    case Uml => 1
    case Sequence => 2
    case Architecture => 3
  }

  /** The groups reported: the non-empty ones, in the dictionary's order. */
  function Report(groups: Groups): (r: seq<(Group, seq<string>)>)
    ensures |r| <= 4
    ensures forall i :: 0 <= i < |r| ==> r[i].1 == groups.Get(r[i].0) && r[i].1 != []
    ensures forall i, j :: 0 <= i < j < |r| ==> Rank(r[i].0) < Rank(r[j].0)
  {
    (if groups.erd != [] then [(Erd, groups.erd)] else []) +
    (if groups.uml != [] then [(Uml, groups.uml)] else []) +
    (if groups.sequence != [] then [(Sequence, groups.sequence)] else []) +
    (if groups.architecture != [] then [(Architecture, groups.architecture)] else [])
  }

  /** Every non-empty group is reported, and only those. */
  lemma ReportShowsNonEmpty(groups: Groups, g: Group)
    ensures groups.Get(g) != [] <==> exists i :: 0 <= i < |Report(groups)| && Report(groups)[i].0 == g
  {
    var r := Report(groups);
    if groups.Get(g) != [] {
      var before := |Report(Groups(
        if Rank(g) > 0 then groups.erd else [],
        if Rank(g) > 1 then groups.uml else [],
        if Rank(g) > 2 then groups.sequence else [],
        []))|;
      assert r[before].0 == g;
    }
  }

  /** One reported file: its type, name and size in kilobytes. */
  datatype FileRow = FileRow(kind: string, name: string, kb: real)

  const PngLabel: string := "\U{1F5BC}\U{FE0F}  PNG"
  const PdfLabel: string := "\U{1F4C4} PDF"

  /** A name ending in `.png` is reported as PNG, every other as PDF; the
      size is the byte count over 1024. */
  function Row(name: string, bytes: nat): (r: FileRow)
    ensures r.kind == PngLabel <==> EndsWith(name, ".png")
    ensures r.kind == PdfLabel <==> !EndsWith(name, ".png")
    ensures r.name == name && r.kb * 1024.0 == bytes as real
  {
    FileRow(if EndsWith(name, ".png") then PngLabel else PdfLabel, name, bytes as real / 1024.0)
  }

  /** What `main` lists: nothing but a message when the directory is
      missing; otherwise the number of diagram files and the report. */
  datatype Summary = DirectoryNotFound | Listed(total: nat, files: seq<string>, report: seq<(Group, seq<string>)>)

  /** Every reported group is sorted and holds only diagram files of the
      listing that classify into that group. */
  predicate ReportDrawnFrom(listing: seq<string>, report: seq<(Group, seq<string>)>) {
    (forall i, f :: 0 <= i < |report| && f in report[i].1 ==>
      f in listing && IsDiagramFile(f) && Classify(f) == Some(report[i].0)) &&
    (forall i :: 0 <= i < |report| ==> Sorted(report[i].1))
  }

  /** `main`: the diagram files of the listing, sorted, counted and
      reported group by group in the order ERD, UML, sequence,
      architecture. */
  method Summarize(dirExists: bool, listing: seq<string>) returns (s: Summary)
    ensures !dirExists <==> s == DirectoryNotFound
    ensures dirExists ==> s.total == |DiagramFiles(listing)|
    ensures dirExists ==> Sorted(s.files) && multiset(s.files) == multiset(DiagramFiles(listing))
    ensures dirExists ==> s.report == Report(Groups(Members(s.files, Erd), Members(s.files, Uml),
                                                    Members(s.files, Sequence), Members(s.files, Architecture)))
    ensures dirExists ==> ReportDrawnFrom(listing, s.report)
  {
    if !dirExists {
      return DirectoryNotFound;
    }
    var filtered := DiagramFiles(listing);
    var files := SortNames(filtered);
    assert |files| == |multiset(files)| == |multiset(filtered)| == |filtered|;
    var groups := GroupFiles(files);
    assert groups == Groups(Members(files, Erd), Members(files, Uml), Members(files, Sequence), Members(files, Architecture));
    var report := Report(groups);
    ReportFromFiles(listing, files, groups);
    s := Listed(|files|, files, report);
  }

  /** Grouping a sorted list of the diagram files of a listing reports
      sorted groups of listed diagram files that classify into their group. */
  lemma ReportFromFiles(listing: seq<string>, files: seq<string>, groups: Groups)
    requires Sorted(files) && multiset(files) == multiset(DiagramFiles(listing))
    requires groups.erd == Members(files, Erd) && groups.uml == Members(files, Uml)
    requires groups.sequence == Members(files, Sequence) && groups.architecture == Members(files, Architecture)
    ensures ReportDrawnFrom(listing, Report(groups))
  {
    var r := Report(groups);
    forall i | 0 <= i < |r|
      ensures Sorted(r[i].1) && forall f :: f in r[i].1 ==> f in files && Classify(f) == Some(r[i].0)
    {
      var g := r[i].0;
      assert r[i].1 == Members(files, g) by {
        match g {
          case Erd =>
          case Uml =>
          case Sequence =>
          case Architecture =>
        }
      }
      MembersSorted(files, g);
      MembersExactly(files, g);
    }
    forall i, f | 0 <= i < |r| && f in r[i].1 ensures f in listing && IsDiagramFile(f) {
      assert f in multiset(files);
      assert f in DiagramFiles(listing);
    }
  }
}
