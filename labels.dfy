/**
 * Text rules shared by the diagram scripts: display truncation, the
 * `name (type)` attribute label, first-N limits, lower-casing, the
 * output-file slug and the substring and suffix tests.
 */
module Labels {

  /** The markers shown before a primary-key and a foreign-key attribute. */
  const KeyMark: string := "\U{1F511} "
  const LinkMark: string := "\U{1F517} "

  /** Python's `s[:n]`: the first n elements, or all of s when it is shorter. */
  function Take<T>(s: seq<T>, n: nat): (r: seq<T>)
    ensures |r| == if |s| <= n then |s| else n
    ensures r == s[..|r|]
  {
    if |s| <= n then s else s[..n]
  }

  /** `s if len(s) <= limit else s[:keep] + "..."`. */
  function Truncate(s: string, limit: nat, keep: nat): (r: string)
    requires keep + 3 <= limit
    ensures |r| <= limit
    ensures |s| <= limit ==> r == s
    ensures |s| > limit ==> |r| == keep + 3 && r[..keep] == s[..keep] && r[keep..] == "..."
  {
    if |s| <= limit then s else s[..keep] + "..."
  }

  /** Truncating twice is truncating once. */
  lemma TruncateIdempotent(s: string, limit: nat, keep: nat)
    requires keep + 3 <= limit
    ensures Truncate(Truncate(s, limit, keep), limit, keep) == Truncate(s, limit, keep)
  {
  }

  /** Two different labels display alike only when at least one of them
      was cut, and two cut labels display alike only when they share their
      first `keep` characters. */
  lemma TruncateCollision(s: string, t: string, limit: nat, keep: nat)
    requires keep + 3 <= limit && s != t
    requires Truncate(s, limit, keep) == Truncate(t, limit, keep)
    ensures |s| > limit || |t| > limit
    ensures |s| > limit && |t| > limit ==> s[..keep] == t[..keep]
  {
    var r := Truncate(s, limit, keep);
    if |s| > limit && |t| > limit {
      assert s[..keep] == r[..keep] == t[..keep];
    }
  }

  /** ASCII lower-casing of one character (Python's `str.lower` on ASCII). */
  function LowerChar(c: char): (d: char)
    ensures 'A' <= c <= 'Z' ==> d as int == c as int + 32
    ensures !('A' <= c <= 'Z') ==> d == c
  {
    if 'A' <= c <= 'Z' then (c as int + 32) as char else c
  }

  predicate IsUpper(c: char) {
    'A' <= c <= 'Z'
  }

  /** `name.lower().replace(' ', '_')`, one character at a time. */
  function SnakeChar(c: char): (d: char)
    ensures !IsUpper(d) && d != ' '
    ensures c != ' ' && !IsUpper(c) ==> d == c
  {
    if c == ' ' then '_' else LowerChar(c)
  }

  function SnakeName(s: string): (r: string)
    ensures |r| == |s|
    ensures forall i :: 0 <= i < |s| ==> r[i] == SnakeChar(s[i])
  {
    seq(|s|, i requires 0 <= i < |s| => SnakeChar(s[i]))
  }

  /** A snake name has no upper-case letter and no space, and snaking it
      again changes nothing. */
  lemma SnakeNameIdempotent(s: string)
    ensures forall i :: 0 <= i < |s| ==> !IsUpper(SnakeName(s)[i]) && SnakeName(s)[i] != ' '
    ensures SnakeName(SnakeName(s)) == SnakeName(s)
  {
    var r := SnakeName(s);
    forall i | 0 <= i < |s|
      ensures SnakeName(r)[i] == r[i]
    {
      assert SnakeChar(r[i]) == r[i];
    }
  }

  /** The output file name: `prefix + name.lower().replace(' ', '_') + ext`. */
  function Slug(prefix: string, name: string, ext: string): (r: string)
    ensures |r| == |prefix| + |name| + |ext|
    ensures r[..|prefix|] == prefix && r[|r| - |ext|..] == ext
    ensures r[|prefix|..|r| - |ext|] == SnakeName(name)
  {
    prefix + SnakeName(name) + ext
  }

  /** Two names with the same slug agree up to case and the space/underscore
      exchange: the slug determines the snake name. */
  lemma SlugDeterminesName(prefix: string, a: string, b: string, ext: string)
    requires Slug(prefix, a, ext) == Slug(prefix, b, ext)
    ensures SnakeName(a) == SnakeName(b)
  {
    var r := Slug(prefix, a, ext);
    assert r[|prefix|..|r| - |ext|] == SnakeName(a);
  }

  /** The four diagram names every generator saves, in order. */
  const DiagramNames: seq<string> :=
    ["Class Diagram", "ERD Diagram", "Sequence Diagram", "Component Diagram"]

  lemma DiagramSnakeNames()
    ensures SnakeName(DiagramNames[0]) == "class_diagram"
    ensures SnakeName(DiagramNames[1]) == "erd_diagram"
    ensures SnakeName(DiagramNames[2]) == "sequence_diagram"
    ensures SnakeName(DiagramNames[3]) == "component_diagram"
  {
    ClassSnake();
    ErdSnake();
    SequenceSnake();
    ComponentSnake();
  }

  lemma ClassSnake()
    ensures SnakeName("Class Diagram") == "class_diagram"
  {
  }

  lemma ErdSnake()
    ensures SnakeName("ERD Diagram") == "erd_diagram"
  {
  }

  lemma SequenceSnake()
    ensures SnakeName("Sequence Diagram") == "sequence_diagram"
  {
  }

  lemma ComponentSnake()
    ensures SnakeName("Component Diagram") == "component_diagram"
  {
  }

  /** `s.endswith(suffix)`. */
  predicate EndsWith(s: string, suffix: string) {
    |suffix| <= |s| && s[|s| - |suffix|..] == suffix
  }

  predicate StartsWith(s: string, prefix: string) {
    |prefix| <= |s| && s[..|prefix|] == prefix
  }

  /** `sub in s`, scanning from the left. */
  predicate Contains(s: string, sub: string)
    decreases |s|
  {
    StartsWith(s, sub) || (|s| > 0 && Contains(s[1..], sub))
  }

  /** sub occurs in s at offset i. */
  predicate OccursAt(s: string, sub: string, i: nat) {
    i + |sub| <= |s| && s[i..i + |sub|] == sub
  }

  /** The scan finds sub exactly when sub occurs at some offset. */
  lemma {:induction false} ContainsAt(s: string, sub: string)
    ensures Contains(s, sub) <==> exists i: nat :: OccursAt(s, sub, i)
    decreases |s|
  {
    if StartsWith(s, sub) {
      assert OccursAt(s, sub, 0);
    } else if |s| > 0 {
      ContainsAt(s[1..], sub);
      if Contains(s[1..], sub) {
        var i: nat :| OccursAt(s[1..], sub, i);
        assert s[1..][i..i + |sub|] == s[i + 1..i + 1 + |sub|];
        assert OccursAt(s, sub, i + 1);
      }
      forall i: nat | OccursAt(s, sub, i)
        ensures OccursAt(s[1..], sub, i - 1)
      {
        assert i != 0;
        assert s[1..][i - 1..i - 1 + |sub|] == s[i..i + |sub|];
      }
    }
  }

  /** The attribute label: the bare name when the type is empty, else
      `name (type)`. */
  function AttributeLabel(name: string, kind: string): (r: string)
    ensures StartsWith(r, name)
    ensures kind == "" ==> r == name
    ensures kind != "" ==> |r| == |name| + |kind| + 3 && r[|name|..] == " (" + kind + ")"
  {
    if kind == "" then name else name + " (" + kind + ")"
  }

  /** Index of the first '(' in s, or |s| when there is none. */
  function FirstOpen(s: string): (i: nat)
    ensures i <= |s|
    ensures i < |s| ==> s[i] == '('
    ensures forall j :: 0 <= j < i ==> s[j] != '('
  {
    if |s| == 0 then 0 else if s[0] == '(' then 0 else 1 + FirstOpen(s[1..])
  }

  /** Reads a label back into its name and type: the inverse of
      AttributeLabel for names without '('. */
  function SplitLabel(text: string): (r: (string, string))
  {
    var i := FirstOpen(text);
    if 1 <= i && i + 1 < |text| && text[i - 1] == ' ' && text[|text| - 1] == ')' then
      (text[..i - 1], text[i + 1..|text| - 1])
    else
      (text, "")
  }

  predicate NoOpen(s: string) {
    forall j :: 0 <= j < |s| ==> s[j] != '('
  }

  lemma {:induction false} FirstOpenAfter(name: string, rest: string)
    requires NoOpen(name) && |rest| >= 2 && rest[0] == ' ' && rest[1] == '('
    ensures FirstOpen(name + rest) == |name| + 1
    decreases |name|
  {
    if |name| == 0 {
      assert name + rest == rest;
    } else {
      assert (name + rest)[1..] == name[1..] + rest;
      FirstOpenAfter(name[1..], rest);
    }
  }

  /** Splitting a label recovers the name and the type it was built from. */
  lemma SplitLabelRoundTrip(name: string, kind: string)
    requires NoOpen(name)
    ensures SplitLabel(AttributeLabel(name, kind)) == (name, kind)
  {
    var text := AttributeLabel(name, kind);
    if kind == "" {
      assert FirstOpen(text) == |text|;
    } else {
      var rest := " (" + kind + ")";
      assert text == name + rest;
      FirstOpenAfter(name, rest);
      assert text[..|name|] == name;
      assert text[|name| + 2..|text| - 1] == kind;
    }
  }
}
