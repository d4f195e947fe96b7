/**
 * The compartments of a corner-based UML class box, shared by
 * professional_dissertation_diagrams.py and professional_uml_class_diagram.py:
 * under a fixed-height name header, the attribute rows run down from the
 * header line and the method rows run down from the methods divider, which
 * sits `methodSection` above the box's bottom y.  The two scripts differ in
 * their constants and in how they split the height below the header.
 */
module ClassSections {
  import opened Geometry
  import opened Wrappers

  /** Heights of the attribute rows, of the methods divider (drawn only
      when there are methods) and of the method rows. */
  datatype ClassRows = ClassRows(attrs: seq<real>, divider: Option<real>, methods: seq<real>)

  /** `top` is the header line; rows are `offset` below their section's
      top and `step` apart.  With attributes the methods divider is at
      `y + methodSection` and the methods start `offset` below it; without
      attributes both are taken from the header line. */
  function RowsFor(y: real, top: real, methodSection: real, step: real, offset: real,
                   nA: nat, nM: nat): (r: ClassRows)
    ensures |r.attrs| == nA && |r.methods| == nM
    ensures r.divider.Some? <==> nM > 0
    ensures forall i :: 0 <= i < nA ==> r.attrs[i] == top - offset - step * (i as real)
    ensures nM > 0 ==> r.methods[0] == r.divider.value - offset
    ensures nM > 0 && nA == 0 ==> r.divider.value == top
  {
    ClassRows(
      Rows(top - offset, step, nA),
      if nM > 0 && nA > 0 then Some(y + methodSection) else if nM > 0 then Some(top) else None,
      Rows(if nA > 0 then y + methodSection - offset else top - offset, step, nM))
  }

  /** Splits `remaining` between two sections in proportion to their
      needs a and m. */
  function ProportionalSplit(remaining: real, a: real, m: real): (s: (real, real))
    requires a > 0.0 && m > 0.0
    ensures s.0 + s.1 == remaining
    ensures s.0 * (a + m) == remaining * a
  {
    var share := remaining * a / (a + m);
    (share, remaining - share)
  }

  /** Scaling two positive needs up to a total of at least their sum keeps
      each share at least its need. */
  lemma ShareAtLeastNeed(r: real, a: real, m: real)
    requires a > 0.0 && m > 0.0 && r >= a + m
    ensures ProportionalSplit(r, a, m).0 >= a && ProportionalSplit(r, a, m).1 >= m
  {
    var k := r / (a + m);
    assert k >= 1.0;
    assert r * a / (a + m) == k * a;
    assert r == k * (a + m);
  }

  /** With both sections present, a section of n rows needing
      `step * n + pad`, at least both needs below the header and the
      proportional split, every attribute row is above the methods
      divider, and every method row is below it and above the box's
      bottom, as long as a row's offset is less than `step + pad`. */
  lemma ProportionalRowsSeparated(y: real, top: real, step: real, offset: real, pad: real, nA: nat, nM: nat)
    requires nA > 0 && nM > 0 && step > 0.0 && offset > 0.0 && offset < step + pad
    requires step * (nA as real) + pad > 0.0 && step * (nM as real) + pad > 0.0
    requires top - y >= step * (nA as real) + pad + step * (nM as real) + pad
    ensures var s := ProportionalSplit(top - y, step * (nA as real) + pad, step * (nM as real) + pad);
      var r := RowsFor(y, top, s.1, step, offset, nA, nM);
      (forall i :: 0 <= i < nA ==> r.attrs[i] > r.divider.value) &&
      (forall j :: 0 <= j < nM ==> y < r.methods[j] < r.divider.value)
  {
    var a, m := step * (nA as real) + pad, step * (nM as real) + pad;
    var s := ProportionalSplit(top - y, a, m);
    ShareAtLeastNeed(top - y, a, m);
    RowsWithin(top - offset, step, nA);
    RowsWithin(y + s.1 - offset, step, nM);
    assert top - offset - step * ((nA - 1) as real) == top - a + (step + pad - offset);
    assert y + s.1 - offset - step * ((nM - 1) as real) == y + s.1 - m + (step + pad - offset);
  }
}
