/** Short call sequences on the Matrix class, each with the values it ends in. */
module MatrixUsage {
  import opened Affine
  import opened SvgMatrix

  /** From a new matrix, translating by (dx, dy) and then scaling by (sx, sy)
      scales the translation too: (10, 0) then (2, 2) leaves
      [2, 0, 20, 0, 2, 0, 0, 0, 1]. */
  method TranslatedThenScaledValues(dx: real, dy: real, sx: real, sy: real) returns (values: seq<real>)
    ensures values == [sx, 0.0, sx * dx, 0.0, sy, sy * dy, 0.0, 0.0, 1.0]
  {
    var m := new Matrix();
    var dest := new real[9];
    var _ := m.PostTranslate(dx, dy);
    assert m.Value() == Translation(dx, dy) by { IdentityIsUnit(Translation(dx, dy)); }
    var _ := m.PostScale(sx, sy);
    assert m.Value() == Mat(sx, 0.0, sx * dx, 0.0, sy, sy * dy, 0.0, 0.0, 1.0) by {
      Affine.TranslateThenScale(dx, dy, sx, sy);
    }
    var _ := m.GetValues(dest);
    SlotsOfFromSlots(dest[..]);
    assert dest[..] == dest[..9];
    values := dest[..];
  }

  /** The instance (10, 0) then (2, 2). */
  method TranslateTenThenDouble() returns (values: seq<real>)
    ensures values == [2.0, 0.0, 20.0, 0.0, 2.0, 0.0, 0.0, 0.0, 1.0]
  {
    values := TranslatedThenScaledValues(10.0, 0.0, 2.0, 2.0);
  }

  /** A new matrix reads back as the identity; after reset it reads back as
      the reset pattern, which differs from it. */
  method FreshThenReset() returns (before: seq<real>, after: seq<real>)
    ensures before == [1.0, 0.0, 0.0, 0.0, 1.0, 0.0, 0.0, 0.0, 1.0]
    ensures after == [1.0, 0.0, 0.0, 1.0, 0.0, 0.0, 0.0, 0.0, 1.0]
    ensures before != after
  {
    var m := new Matrix();
    var dest := new real[9];
    var _ := m.GetValues(dest);
    SlotsOfFromSlots(dest[..]);
    before := dest[..];
    m.Reset();
    var _ := m.GetValues(dest);
    SlotsOfFromSlots(dest[..]);
    after := dest[..];
    assert before[4] != after[4];
  }

  /** Nine values stored with setValues come back unchanged from getValues. */
  method StoreThenLoad(m: Matrix, src: array<real>, dest: array<real>)
    requires m.Valid() && src.Length >= 9 && dest.Length >= 9
    modifies m.slots, dest
    ensures dest[..9] == old(src[..9])
  {
    var _ := m.SetValues(src);
    var _ := m.GetValues(dest);
    SlotsOfFromSlots(dest[..]);
    SlotsOfFromSlots(old(src[..]));
  }

  /** Copying with set makes both matrices read back the nine values the
      source held. */
  method CopyReadsBackAlike(source: Matrix, target: Matrix)
      returns (fromSource: seq<real>, fromTarget: seq<real>)
    requires source.Valid() && target.Valid()
    modifies target.slots
    ensures fromSource == fromTarget == Slots(old(source.Value()))
  {
    var a := new real[9];
    var b := new real[9];
    target.Set(source);
    var _ := source.GetValues(a);
    var _ := target.GetValues(b);
    SlotsOfFromSlots(a[..]);
    SlotsOfFromSlots(b[..]);
    assert a[..] == a[..9] && b[..] == b[..9];
    fromSource, fromTarget := a[..], b[..];
  }

  /** After set, the two matrices share no storage: resetting the source
      leaves the copy holding the values it was given. */
  method CopyThenResetSource(source: Matrix, target: Matrix) returns (fromTarget: seq<real>)
    requires source.Valid() && target.Valid() && source.slots != target.slots
    modifies source.slots, target.slots
    ensures fromTarget == Slots(old(source.Value()))
  {
    var b := new real[9];
    target.Set(source);
    source.Reset();
    var _ := target.GetValues(b);
    SlotsOfFromSlots(b[..]);
    assert b[..] == b[..9];
    fromTarget := b[..];
  }
}
