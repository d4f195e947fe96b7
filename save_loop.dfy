/**
 * The `save_diagrams` loop shared by academic_diagram_generator.py and
 * fixed_diagram_generator.py: the four diagrams are built in turn and
 * each is saved as `<prefix><snake name>.png` and `.pdf`; a diagram whose
 * builder raises is reported and skipped, and the loop goes on.
 */
module SaveLoop {
  import opened Labels

  /** The PNG and PDF names of one diagram. */
  function OutputFiles(prefix: string, name: string): (f: (string, string))
    ensures f.0 == Slug(prefix, name, ".png") && f.1 == Slug(prefix, name, ".pdf")
  {
    (Slug(prefix, name, ".png"), Slug(prefix, name, ".pdf"))
  }

  /** Each of a diagram's two names is the prefix, then the diagram's snake
      name, then its own extension, so the two never clash. */
  lemma OutputFileNames(prefix: string, name: string)
    ensures var f := OutputFiles(prefix, name);
      StartsWith(f.0, prefix) && EndsWith(f.0, ".png") && f.0[|prefix|..|f.0| - 4] == SnakeName(name) &&
      StartsWith(f.1, prefix) && EndsWith(f.1, ".pdf") && f.1[|prefix|..|f.1| - 4] == SnakeName(name) &&
      f.0 != f.1
  {
    var png, pdf := Slug(prefix, name, ".png"), Slug(prefix, name, ".pdf");
    assert png[|png| - 3] == ".png"[1] && pdf[|pdf| - 3] == ".pdf"[1];
  }

  /** The files of the first n diagrams that do not fail, in order. */
  function Saved(prefix: string, names: seq<string>, failing: set<nat>, n: nat): (r: seq<string>)
    requires n <= |names|
    ensures |r| <= 2 * n
  {
    if n == 0 then []
    else
      Saved(prefix, names, failing, n - 1) +
        (if n - 1 in failing then []
         else [OutputFiles(prefix, names[n - 1]).0, OutputFiles(prefix, names[n - 1]).1])
  }

  /** `save_diagrams` over the four diagrams; `failing` holds the indices
      of the diagrams whose builder raises. */
  method SaveDiagrams(prefix: string, failing: set<nat>) returns (files: seq<string>)
    ensures files == Saved(prefix, DiagramNames, failing, |DiagramNames|)
  {
    files := [];
    var i := 0;
    while i < |DiagramNames|
      invariant 0 <= i <= |DiagramNames|
      invariant files == Saved(prefix, DiagramNames, failing, i)
    {
      if i !in failing {
        var f := OutputFiles(prefix, DiagramNames[i]);
        files := files + [f.0, f.1];
      }
      i := i + 1;
    }
  }

  /** A PNG name is the PNG name of one snake name only, and never a PDF
      name. */
  lemma PngNameUnique(prefix: string, a: string, b: string)
    requires OutputFiles(prefix, a).0 == OutputFiles(prefix, b).0 || OutputFiles(prefix, a).0 == OutputFiles(prefix, b).1
    ensures SnakeName(a) == SnakeName(b)
  {
    if OutputFiles(prefix, a).0 == OutputFiles(prefix, b).0 {
      SlugDeterminesName(prefix, a, b, ".png");
    }
  }

  /** No file saved among the first n diagrams is the PNG of a later one. */
  lemma {:induction false} SavedNamesEarlier(prefix: string, names: seq<string>, failing: set<nat>, n: nat, i: nat)
    requires n <= i < |names|
    requires forall j, k :: 0 <= j < k < |names| ==> SnakeName(names[j]) != SnakeName(names[k])
    ensures OutputFiles(prefix, names[i]).0 !in Saved(prefix, names, failing, n)
  {
    if n > 0 {
      SavedNamesEarlier(prefix, names, failing, n - 1, i);
      var f := OutputFiles(prefix, names[n - 1]);
      if OutputFiles(prefix, names[i]).0 == f.0 || OutputFiles(prefix, names[i]).0 == f.1 {
        PngNameUnique(prefix, names[i], names[n - 1]);
      }
    }
  }

  /** With distinct snake names, a diagram's PNG is saved exactly when its
      builder does not raise. */
  lemma {:induction false} SavedExactly(prefix: string, names: seq<string>, failing: set<nat>, n: nat, i: nat)
    requires n <= |names| && i < n
    requires forall j, k :: 0 <= j < k < |names| ==> SnakeName(names[j]) != SnakeName(names[k])
    ensures OutputFiles(prefix, names[i]).0 in Saved(prefix, names, failing, n) <==> i !in failing
  {
    if i == n - 1 {
      if i in failing {
        SavedNamesEarlier(prefix, names, failing, n - 1, i);
      }
    } else {
      SavedExactly(prefix, names, failing, n - 1, i);
      var f := OutputFiles(prefix, names[n - 1]);
      if OutputFiles(prefix, names[i]).0 == f.0 || OutputFiles(prefix, names[i]).0 == f.1 {
        PngNameUnique(prefix, names[i], names[n - 1]);
      }
    }
  }

  /** The four diagrams of both scripts: each PNG is saved exactly when
      its builder does not raise. */
  lemma DiagramSavedExactly(prefix: string, failing: set<nat>, i: nat)
    requires i < 4
    ensures OutputFiles(prefix, DiagramNames[i]).0 in Saved(prefix, DiagramNames, failing, 4) <==> i !in failing
  {
    DiagramSnakeNames();
    SavedExactly(prefix, DiagramNames, failing, 4, i);
  }

  lemma SavedStep(prefix: string, names: seq<string>, n: nat)
    requires 0 < n <= |names|
    ensures Saved(prefix, names, {}, n) ==
      Saved(prefix, names, {}, n - 1) + [OutputFiles(prefix, names[n - 1]).0, OutputFiles(prefix, names[n - 1]).1]
  {
  }

  /** Without failures the files of the first n diagrams are their PNG
      and PDF names, in order. */
  lemma {:induction false} SavedPrefix(prefix: string, names: seq<string>, files: seq<string>, n: nat)
    requires n <= |names| && |files| == 2 * |names|
    requires forall k :: 0 <= k < |names| ==> OutputFiles(prefix, names[k]) == (files[2 * k], files[2 * k + 1])
    ensures Saved(prefix, names, {}, n) == files[..2 * n]
  {
    if n > 0 {
      SavedPrefix(prefix, names, files, n - 1);
      SavedStep(prefix, names, n);
      assert OutputFiles(prefix, names[n - 1]) == (files[2 * n - 2], files[2 * n - 1]);
      assert files[..2 * n] == files[..2 * n - 2] + [files[2 * n - 2], files[2 * n - 1]];
    }
  }

  /** The snake names of the four diagrams. */
  const DiagramSnakes: seq<string> := ["class_diagram", "erd_diagram", "sequence_diagram", "component_diagram"]

  /** Each diagram's files are its snake name with the prefix and the two
      extensions. */
  lemma DiagramOutputFiles(prefix: string, k: nat)
    requires k < 4
    ensures OutputFiles(prefix, DiagramNames[k]) ==
      (prefix + DiagramSnakes[k] + ".png", prefix + DiagramSnakes[k] + ".pdf")
  {
    DiagramSnakeNames();
  }

  /** Without failures the eight files are, in order, the class, ERD,
      sequence and component diagrams as PNG and PDF. */
  lemma AllSaved(prefix: string)
    ensures var r := Saved(prefix, DiagramNames, {}, 4);
      |r| == 8 &&
      forall k :: 0 <= k < 4 ==>
        r[2 * k] == prefix + DiagramSnakes[k] + ".png" && r[2 * k + 1] == prefix + DiagramSnakes[k] + ".pdf"
  {
    var files := seq(8, k requires 0 <= k < 8 =>
      prefix + DiagramSnakes[k / 2] + (if k % 2 == 0 then ".png" else ".pdf"));
    forall k | 0 <= k < 4
      ensures OutputFiles(prefix, DiagramNames[k]) == (files[2 * k], files[2 * k + 1])
    {
      DiagramOutputFiles(prefix, k);
      assert (2 * k) / 2 == k && (2 * k + 1) / 2 == k && (2 * k) % 2 == 0 && (2 * k + 1) % 2 == 1;
    }
    SavedPrefix(prefix, DiagramNames, files, 4);
    assert files[..8] == files;
  }
}
