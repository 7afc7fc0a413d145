/** The SVG generator's Matrix class: a 3x3 transform kept in a nine-slot
    array of its own. reset, setValues, set, preConcat and the post-operations
    overwrite that array in place; getValues and the string forms only read
    it. */
module SvgMatrix {
  import opened Affine

  /** How a call that may throw ended: normally, or with the
      index-out-of-bounds exception raised for a short array. */
  datatype Outcome = Completed | IndexOutOfBounds

  /** The growable text buffer the string forms are built in. */
  class StringBuilder {
    var text: string

    constructor()
      ensures text == ""
    {
      text := "";
    }

    method Append(s: string)
      modifies this
      ensures text == old(text) + s
    {
      text := text + s;
    }
  }

  class Matrix {
    /** The nine slots, row-major; the array itself is never replaced. */
    const slots: array<real>

    predicate Valid() {
      slots.Length == 9
    }

    /** The matrix the slots currently hold. */
    function Value(): Mat
      requires Valid()
      reads slots
    {
      FromSlots(slots[..])
    }

    /** A new matrix is the identity, in an array of its own. */
    constructor()
      ensures Valid() && fresh(slots)
      ensures Value() == Identity()
    {
      slots := new real[] [1.0, 0.0, 0.0, 0.0, 1.0, 0.0, 0.0, 0.0, 1.0];
    }

    /** Overwrites the nine slots with the reset pattern, which is not the
        identity (see Affine.ResetIsNotIdentity). */
    method Reset()
      requires Valid()
      modifies slots
      ensures Value() == ResetPattern()
    {
      slots[ScaleXSlot] := 1.0;
      slots[SkewXSlot] := 0.0;
      slots[TransXSlot] := 0.0;
      slots[SkewYSlot] := 1.0;
      slots[ScaleYSlot] := 0.0;
      slots[TransYSlot] := 0.0;
      slots[Persp0Slot] := 0.0;
      slots[Persp1Slot] := 0.0;
      slots[Persp2Slot] := 1.0;
    }

    /** Copies the nine slots into the first nine cells of values. A short
        array raises the exception and is left as it was; a longer one keeps
        its cells from index 9 on. The matrix never changes. */
    method GetValues(values: array<real>) returns (outcome: Outcome)
      requires Valid()
      modifies values
      ensures values.Length < 9 ==> outcome == IndexOutOfBounds && values[..] == old(values[..])
      ensures values.Length >= 9 ==>
                outcome == Completed
                && FromSlots(values[..]) == old(Value())
                && values[9..] == old(values[9..])
      ensures Value() == old(Value())
    {
      if values.Length < 9 {
        return IndexOutOfBounds;
      }
      values[ScaleXSlot] := slots[ScaleXSlot];
      values[SkewXSlot] := slots[SkewXSlot];
      values[TransXSlot] := slots[TransXSlot];
      values[SkewYSlot] := slots[SkewYSlot];
      values[ScaleYSlot] := slots[ScaleYSlot];
      values[TransYSlot] := slots[TransYSlot];
      values[Persp0Slot] := slots[Persp0Slot];
      values[Persp1Slot] := slots[Persp1Slot];
      values[Persp2Slot] := slots[Persp2Slot];
      return Completed;
    }

    /** Copies the first nine cells of values into the slots. A short array
        raises the exception and the matrix is left as it was. The array read
        from is never changed. */
    method SetValues(values: array<real>) returns (outcome: Outcome)
      requires Valid()
      modifies slots
      ensures values.Length < 9 ==> outcome == IndexOutOfBounds && slots[..] == old(slots[..])
      ensures values.Length >= 9 ==> outcome == Completed && Value() == FromSlots(old(values[..]))
      ensures values[..] == old(values[..])
    {
      if values.Length < 9 {
        return IndexOutOfBounds;
      }
      slots[ScaleXSlot] := values[ScaleXSlot];
      slots[SkewXSlot] := values[SkewXSlot];
      slots[TransXSlot] := values[TransXSlot];
      slots[SkewYSlot] := values[SkewYSlot];
      slots[ScaleYSlot] := values[ScaleYSlot];
      slots[TransYSlot] := values[TransYSlot];
      slots[Persp0Slot] := values[Persp0Slot];
      slots[Persp1Slot] := values[Persp1Slot];
      slots[Persp2Slot] := values[Persp2Slot];
      return Completed;
    }

    /** A deep copy of src through a fresh buffer, or the reset pattern when
        there is no src. The source matrix keeps its value. */
    method Set(src: Matrix?)
      requires Valid() && (src != null ==> src.Valid())
      modifies slots
      ensures src == null ==> Value() == ResetPattern()
      ensures src != null ==> Value() == old(src.Value()) && src.Value() == old(src.Value())
    {
      if src == null {
        Reset();
      } else {
        var values := new real[9];
        var _ := src.GetValues(values);
        var _ := SetValues(values);
      }
    }

    /** M' = M * other. The values of other are copied out before any slot is
        written, so other may be this matrix itself, which is then squared. */
    method PreConcat(other: Matrix) returns (done: bool)
      requires Valid() && other.Valid()
      modifies slots
      ensures done
      ensures Value() == Mul(old(Value()), old(other.Value()))
      ensures other.slots != slots ==> other.Value() == old(other.Value())
    {
      var otherValue := new real[9];
      var _ := other.GetValues(otherValue);
      var newValue := new real[9];
      newValue[ScaleXSlot] := slots[ScaleXSlot] * otherValue[ScaleXSlot] + slots[SkewXSlot] * otherValue[SkewYSlot]
                              + slots[TransXSlot] * otherValue[Persp0Slot];
      newValue[SkewXSlot] := slots[ScaleXSlot] * otherValue[SkewXSlot] + slots[SkewXSlot] * otherValue[ScaleYSlot]
                             + slots[TransXSlot] * otherValue[Persp1Slot];
      newValue[TransXSlot] := slots[ScaleXSlot] * otherValue[TransXSlot] + slots[SkewXSlot] * otherValue[TransYSlot]
                              + slots[TransXSlot] * otherValue[Persp2Slot];
      newValue[SkewYSlot] := slots[SkewYSlot] * otherValue[ScaleXSlot] + slots[ScaleYSlot] * otherValue[SkewYSlot]
                             + slots[TransYSlot] * otherValue[Persp0Slot];
      newValue[ScaleYSlot] := slots[SkewYSlot] * otherValue[SkewXSlot] + slots[ScaleYSlot] * otherValue[ScaleYSlot]
                              + slots[TransYSlot] * otherValue[Persp1Slot];
      newValue[TransYSlot] := slots[SkewYSlot] * otherValue[TransXSlot] + slots[ScaleYSlot] * otherValue[TransYSlot]
                              + slots[TransYSlot] * otherValue[Persp2Slot];
      newValue[Persp0Slot] := slots[Persp0Slot] * otherValue[ScaleXSlot] + slots[Persp1Slot] * otherValue[SkewYSlot]
                              + slots[Persp2Slot] * otherValue[Persp0Slot];
      newValue[Persp1Slot] := slots[Persp0Slot] * otherValue[SkewXSlot] + slots[Persp1Slot] * otherValue[ScaleYSlot]
                              + slots[Persp2Slot] * otherValue[Persp1Slot];
      newValue[Persp2Slot] := slots[Persp0Slot] * otherValue[TransXSlot] + slots[Persp1Slot] * otherValue[TransYSlot]
                              + slots[Persp2Slot] * otherValue[Persp2Slot];
      MulOfSlots(slots[..], otherValue[..], newValue[..]);
      var _ := SetValues(newValue);
      return true;
    }

    /** M' = T(dx, dy) * M, built in a scratch matrix and copied back. */
    method PostTranslate(dx: real, dy: real) returns (done: bool)
      requires Valid()
      modifies slots
      ensures done
      ensures Value() == Mul(Translation(dx, dy), old(Value()))
    {
      var matrix := new Matrix();
      var values := new real[] [1.0, 0.0, dx, 0.0, 1.0, dy, 0.0, 0.0, 1.0];
      var _ := matrix.SetValues(values);
      var current := new Matrix();
      var _ := current.SetValues(slots);
      var _ := matrix.PreConcat(current);
      Set(matrix);
      return true;
    }

    /** M' = S(sx, sy) * M, built in a scratch matrix and copied back. */
    method PostScale(sx: real, sy: real) returns (done: bool)
      requires Valid()
      modifies slots
      ensures done
      ensures Value() == Mul(Scaling(sx, sy), old(Value()))
    {
      var matrix := new Matrix();
      var values := new real[] [sx, 0.0, 0.0, 0.0, sy, 0.0, 0.0, 0.0, 1.0];
      var _ := matrix.SetValues(values);
      var current := new Matrix();
      var _ := current.SetValues(slots);
      var _ := matrix.PreConcat(current);
      Set(matrix);
      return true;
    }

    /** M' = R(degrees, px, py) * M. sinOf and cosOf stand for the sine and
        cosine of the angle given in degrees, rounded to the slot type. */
    method PostRotate(degrees: real, px: real, py: real, sinOf: real -> real, cosOf: real -> real)
      returns (done: bool)
      requires Valid()
      modifies slots
      ensures done
      ensures Value() == Mul(Rotation(cosOf(degrees), sinOf(degrees), px, py), old(Value()))
    {
      var sin := sinOf(degrees);
      var cos := cosOf(degrees);
      var matrix := new Matrix();
      var values := new real[] [cos, -sin, -px * cos + py * sin + px,
                                sin, cos, -px * sin - py * cos + py,
                                0.0, 0.0, 1.0];
      var _ := matrix.SetValues(values);
      // The two assertions below follow from the contracts of the calls
      // before them; stating them keeps the solver off the products inside
      // the rotation's entries.
      ghost var rotation := Rotation(cos, sin, px, py);
      assert matrix.Value() == rotation;
      var current := new Matrix();
      var _ := current.SetValues(slots);
      var _ := matrix.PreConcat(current);
      assert matrix.Value() == Mul(rotation, old(Value()));
      Set(matrix);
      return true;
    }

    /** Appends the short form to sb, piece by piece; fmt renders one value. */
    method ToShortStringInto(sb: StringBuilder, fmt: real -> string)
      requires Valid()
      modifies sb
      ensures sb.text == old(sb.text) + ShortString(Value(), fmt)
    {
      var values := new real[9];
      var _ := GetValues(values);
      assert values[..] == Slots(Value()) by { SlotsOfFromSlots(values[..]); }
      sb.Append("[");
      sb.Append(fmt(values[0])); sb.Append(", "); sb.Append(fmt(values[1])); sb.Append(", ");
      sb.Append(fmt(values[2])); sb.Append("][");
      sb.Append(fmt(values[3])); sb.Append(", "); sb.Append(fmt(values[4])); sb.Append(", ");
      sb.Append(fmt(values[5])); sb.Append("][");
      sb.Append(fmt(values[6])); sb.Append(", "); sb.Append(fmt(values[7])); sb.Append(", ");
      sb.Append(fmt(values[8])); sb.Append("]");
      AppendShortString(old(sb.text), Value(), fmt);
    }

    /** The short form on its own. */
    method ToShortString(fmt: real -> string) returns (s: string)
      requires Valid()
      ensures s == ShortString(Value(), fmt)
    {
      var sb := new StringBuilder();
      ToShortStringInto(sb, fmt);
      s := sb.text;
    }

    /** The short form wrapped in "Matrix{" and "}". */
    method ToString(fmt: real -> string) returns (s: string)
      requires Valid()
      ensures s == LongString(Value(), fmt)
    {
      var sb := new StringBuilder();
      sb.Append("Matrix{");
      ToShortStringInto(sb, fmt);
      sb.Append("}");
      s := sb.text;
    }
  }
}
