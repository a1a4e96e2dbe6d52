/**
 * `SceneNoteMenu.GetNextNoteName`: the name of a new scene note under the notes container,
 * `Note` followed by one more than the largest number among the children named `Note<n>`,
 * written with at least two digits (`Note01`, `Note02`, ...). The children are given by
 * their names, in hierarchy order.
 */
module SceneNoteMenus {
  import opened Wrappers
  import opened Strings
  import opened Decimal

  /** The prefix of every note name. */
  const NotePrefix: string := "Note"

  /** The number of a child as the menu reads it: its name starts with `Note` and the rest
      parses as an `int`. */
  function NoteNumber(name: string): (r: Option<int>)
    ensures r.Some? ==> StartsWith(name, NotePrefix) && ParseInt32(name[|NotePrefix|..]) == r
    ensures !StartsWith(name, NotePrefix) ==> r.None?
  {
    if StartsWith(name, NotePrefix) then ParseInt32(name[|NotePrefix|..]) else None
  }

  /** The largest `int` note number among the children, or 0 when none is larger. */
  function MaxNoteNumber(names: seq<string>): (m: int)
    ensures 0 <= m <= Int32Max
    ensures forall i :: 0 <= i < |names| && NoteNumber(names[i]).Some? ==> NoteNumber(names[i]).value <= m
  {
    if |names| == 0 then 0
    else
      var m := MaxNoteNumber(names[..|names| - 1]);
      var n := NoteNumber(names[|names| - 1]);
      if n.Some? && n.value > m then n.value else m
  }

  /** A positive maximum is the number of some child. */
  lemma {:induction false} MaxNoteNumberAttained(names: seq<string>)
    ensures MaxNoteNumber(names) == 0 || exists i :: 0 <= i < |names| && NoteNumber(names[i]) == Some(MaxNoteNumber(names))
  {
    if |names| > 0 {
      var prefix := names[..|names| - 1];
      MaxNoteNumberAttained(prefix);
      if MaxNoteNumber(names) != 0 && MaxNoteNumber(names) == MaxNoteNumber(prefix) {
        var i :| 0 <= i < |prefix| && NoteNumber(prefix[i]) == Some(MaxNoteNumber(prefix));
        assert names[i] == prefix[i];
      }
    }
  }

  /** The name of the note numbered `n`: `Note` followed by `n` formatted `:D2`. */
  function NoteName(n: int): string {
    NotePrefix + FormatD2(n)
  }

  /** `GetNextNoteName` as written: `maxIndex + 1` is C# `int` addition, which wraps around
      at `int.MaxValue`. */
  function AsWrittenNextNoteName(names: seq<string>): string {
    NoteName(Wrap32(MaxNoteNumber(names) + 1))
  }

  /**
   * With a child named `Note2147483647`, the name as written is `Note-2147483648`. Its number,
   * `int.MinValue`, is not larger than the existing one, so adding the new note does not
   * change the next name, which is the same again.
   */
  lemma AsWrittenRepeatsAfterIntMax()
    ensures var names := [NoteName(Int32Max)];
      var next := AsWrittenNextNoteName(names);
      next == NoteName(Int32Min) &&
      NoteNumber(next) == Some(Int32Min) &&
      AsWrittenNextNoteName(names + [next]) == next
  {
    var names := [NoteName(Int32Max)];
    NoteNameParts(Int32Max);
    assert MaxNoteNumber(names) == Int32Max by {
      assert names[..0] == [];
    }
    Wrap32Overflow();
    var next := NoteName(Int32Min);
    NoteNameNumber(Int32Min);
    var more := names + [next];
    assert more[..1] == names;
    assert MaxNoteNumber(more) == Int32Max;
  }

  /** The number of a child as the corrected menu reads it: the rest of a `Note` name read as
      an integer without a bound. */
  function NoteValue(name: string): (r: Option<int>)
    ensures r.Some? ==> StartsWith(name, NotePrefix) && ParseInteger(name[|NotePrefix|..]) == r
    ensures !StartsWith(name, NotePrefix) ==> r.None?
  {
    if StartsWith(name, NotePrefix) then ParseInteger(name[|NotePrefix|..]) else None
  }

  /** The largest note number among the children, or 0 when none is larger. */
  function MaxNoteValue(names: seq<string>): (m: nat)
    ensures forall i :: 0 <= i < |names| && NoteValue(names[i]).Some? ==> NoteValue(names[i]).value <= m
  {
    if |names| == 0 then 0
    else
      var m := MaxNoteValue(names[..|names| - 1]);
      var n := NoteValue(names[|names| - 1]);
      if n.Some? && n.value > m then n.value else m
  }

  /** A positive maximum is the number of some child. */
  lemma {:induction false} MaxNoteValueAttained(names: seq<string>)
    ensures MaxNoteValue(names) == 0 || exists i :: 0 <= i < |names| && NoteValue(names[i]) == Some(MaxNoteValue(names))
  {
    if |names| > 0 {
      var prefix := names[..|names| - 1];
      MaxNoteValueAttained(prefix);
      if MaxNoteValue(names) != 0 && MaxNoteValue(names) == MaxNoteValue(prefix) {
        var i :| 0 <= i < |prefix| && NoteValue(prefix[i]) == Some(MaxNoteValue(prefix));
        assert names[i] == prefix[i];
      }
    }
  }

  /** The loop of `GetNextNoteName`: the largest note number, starting from 0. */
  method MaxNoteIndex(names: seq<string>) returns (maxIndex: int)
    ensures maxIndex == MaxNoteValue(names)
  {
    maxIndex := 0;
    var i := 0;
    while i < |names|
      invariant 0 <= i <= |names|
      invariant maxIndex == MaxNoteValue(names[..i])
    {
      assert names[..i + 1][..i] == names[..i];
      var number := NoteValue(names[i]);
      if number.Some? && number.value > maxIndex {
        maxIndex := number.value;
      }
      i := i + 1;
    }
    assert names[..i] == names;
  }

  /** The name `GetNextNoteName` returns, with the numbers read and incremented without a
      bound. */
  function NextNoteName(names: seq<string>): string {
    NoteName(MaxNoteValue(names) + 1)
  }

  /**
   * `GetNextNoteName`, with the numbers read and incremented without a bound: `Note` followed
   * by at least two digits, carrying a number larger than every child's. So no child has that
   * name, and once the new note is added the next name is another one.
   */
  method GetNextNoteName(names: seq<string>) returns (name: string)
    ensures name == NextNoteName(names)
    ensures StartsWith(name, NotePrefix)
    ensures var suffix := name[|NotePrefix|..];
      |suffix| >= 2 && AllDigits(suffix) && DigitsValue(suffix) == MaxNoteValue(names) + 1
    ensures NoteValue(name) == Some(MaxNoteValue(names) + 1)
    ensures name !in names
    ensures NextNoteName(names + [name]) != name
  {
    var maxIndex := MaxNoteIndex(names);
    name := NoteName(maxIndex + 1);
    assert name == NextNoteName(names) by {
      assert maxIndex + 1 == MaxNoteValue(names) + 1;
    }
    NoteNameParts(maxIndex + 1);
    NextNoteNameFresh(names);
    NextNoteNameAdvances(names);
  }

  /** The new name carries a number no child has, so no child has that name. */
  lemma NextNoteNameFresh(names: seq<string>)
    ensures NoteValue(NextNoteName(names)) == Some(MaxNoteValue(names) + 1)
    ensures NextNoteName(names) !in names
  {
    NoteNameValue(MaxNoteValue(names) + 1);
    AboveMaxAbsent(names, NextNoteName(names));
  }

  /** A name whose number exceeds every child's is no child's name. */
  lemma AboveMaxAbsent(names: seq<string>, name: string)
    requires NoteValue(name).Some? && NoteValue(name).value > MaxNoteValue(names)
    ensures name !in names
  {
    forall i | 0 <= i < |names|
      ensures names[i] != name
    {
      if NoteValue(names[i]).Some? {
        assert NoteValue(names[i]).value <= MaxNoteValue(names);
      }
    }
  }

  /** Once the new note is added, the largest number is its number, so the next name differs. */
  lemma NextNoteNameAdvances(names: seq<string>)
    ensures MaxNoteValue(names + [NextNoteName(names)]) == MaxNoteValue(names) + 1
    ensures NextNoteName(names + [NextNoteName(names)]) != NextNoteName(names)
  {
    var m := MaxNoteValue(names);
    var more := names + [NoteName(m + 1)];
    NoteNameValue(m + 1);
    assert more[..|names|] == names;
    assert MaxNoteValue(more) == m + 1;
    NoteNameValue(m + 2);
  }

  /** The note named for `n` carries `n`. */
  lemma NoteNameValue(n: int)
    ensures NoteValue(NoteName(n)) == Some(n)
  {
    assert NoteName(n)[|NotePrefix|..] == FormatD2(n);
    FormatD2Integer(n);
  }

  /** The note named for an `int` carries it as `int.TryParse` reads it too. */
  lemma NoteNameNumber(n: int)
    requires IsInt32(n)
    ensures NoteNumber(NoteName(n)) == Some(n)
  {
    assert NoteName(n)[|NotePrefix|..] == FormatD2(n);
    FormatD2Parses(n);
  }

  /** The note named for a positive number starts with the prefix and ends in the number's
      digits, at least two of them. */
  lemma NoteNameParts(n: int)
    requires n >= 1
    ensures StartsWith(NoteName(n), NotePrefix)
    ensures NoteName(n)[|NotePrefix|..] == FormatD2(n)
    ensures |FormatD2(n)| >= 2 && AllDigits(FormatD2(n)) && DigitsValue(FormatD2(n)) == n
    ensures NoteValue(NoteName(n)) == Some(n)
    ensures n <= Int32Max ==> NoteNumber(NoteName(n)) == Some(n)
  {
    assert NoteName(n)[|NotePrefix|..] == FormatD2(n);
    FormatD2Digits(n);
    NoteNameValue(n);
    if n <= Int32Max {
      NoteNameNumber(n);
    }
  }

  /**
   * While every child's number stays below `int.MaxValue`, the corrected name is the name as
   * written: the two readings of a number agree, or neither raises the maximum.
   */
  lemma CorrectedAgreesBelowIntMax(names: seq<string>)
    requires forall i :: 0 <= i < |names| && NoteValue(names[i]).Some? ==> NoteValue(names[i]).value < Int32Max
    ensures MaxNoteValue(names) == MaxNoteNumber(names)
    ensures NextNoteName(names) == AsWrittenNextNoteName(names)
  {
    MaxAgree(names);
    var m := MaxNoteNumber(names);
    Wrap32InRange(m + 1);
    assert NoteName(MaxNoteValue(names) + 1) == NoteName(Wrap32(m + 1)) by {
      assert MaxNoteValue(names) + 1 == Wrap32(m + 1);
    }
  }

  /** Below `int.MaxValue` both readings give the same maximum, which stays below it. */
  lemma {:induction false} MaxAgree(names: seq<string>)
    requires forall i :: 0 <= i < |names| && NoteValue(names[i]).Some? ==> NoteValue(names[i]).value < Int32Max
    ensures MaxNoteValue(names) == MaxNoteNumber(names) < Int32Max
  {
    if |names| > 0 {
      var prefix := names[..|names| - 1];
      assert forall i :: 0 <= i < |prefix| ==> prefix[i] == names[i];
      MaxAgree(prefix);
    }
  }

  /** With no numbered note yet the new note is `Note01`. */
  lemma FirstNoteName(names: seq<string>)
    requires forall i :: 0 <= i < |names| ==> NoteValue(names[i]).None?
    ensures NextNoteName(names) == "Note01"
  {
    NoNumberedNotes(names);
    FormatD2One();
    assert NoteName(1) == "Note01";
  }

  /** Without numbered notes the largest number is 0. */
  lemma NoNumberedNotes(names: seq<string>)
    requires forall i :: 0 <= i < |names| ==> NoteValue(names[i]).None?
    ensures MaxNoteValue(names) == 0
  {
  }

  /** One formats as `01`. */
  lemma FormatD2One()
    ensures FormatD2(1) == "01"
  {
    assert DigitChar(1) == '1';
    assert DecimalString(1) == "1";
  }
}
