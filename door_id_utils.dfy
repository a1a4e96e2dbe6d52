/** Door identifiers: the random generator and the format rule `[0-9a-zA-Z_-]{1,64}`. */
module DoorIdUtils {

  const MinLength: int := 1
  const MaxLength: int := 64

  /** The characters the generator draws from, in order: the ten digits, then the lower-case
      letters. */
  const Alphabet: string :=
    seq(36, k requires 0 <= k < 36 => if k < 10 then ('0' as int + k) as char else ('a' as int + k - 10) as char)

  /** Spelled out, the alphabet is `0123456789abcdefghijklmnopqrstuvwxyz`. */
  lemma AlphabetSpelledOut()
    ensures Alphabet == "0123456789abcdefghijklmnopqrstuvwxyz"
  {
  }

  /** A character an id may contain. */
  predicate IsIdChar(c: char) {
    ('0' <= c <= '9') || ('a' <= c <= 'z') || ('A' <= c <= 'Z') || c == '_' || c == '-'
  }

  /** The requested length forced into [MinLength, MaxLength]. */
  function ClampLength(length: int): (n: int)
    ensures MinLength <= n <= MaxLength
    ensures MinLength <= length <= MaxLength ==> n == length
    ensures length < MinLength ==> n == MinLength
    ensures length > MaxLength ==> n == MaxLength
  {
    if length < MinLength then MinLength else if length > MaxLength then MaxLength else length
  }

  /**
   * Builds an id of the clamped length, one character per step. `random.NextDouble() * 36`
   * is a nondeterministic real in [0, 36]: the floating-point product may round up to 36,
   * which is what the index guard is for.
   */
  method GenerateId(length: int) returns (id: string)
    ensures |id| == ClampLength(length)
    ensures forall i :: 0 <= i < |id| ==> id[i] in Alphabet
    ensures IsValidId(id)
  {
    var n := ClampLength(length);
    var chars := new char[n];
    var i := 0;
    while i < n
      invariant 0 <= i <= n
      invariant forall k :: 0 <= k < i ==> chars[k] in Alphabet
    {
      var product: real :| 0.0 <= product <= 36.0;
      var idx := product.Floor;
      if idx >= |Alphabet| {
        idx := |Alphabet| - 1;
      }
      chars[i] := Alphabet[idx];
      i := i + 1;
    }
    id := chars[..];
    AlphabetStringValid(id);
  }

  /** Every string of 1 to 64 alphabet characters is a valid id. */
  lemma AlphabetStringValid(id: string)
    requires MinLength <= |id| <= MaxLength
    requires forall i :: 0 <= i < |id| ==> id[i] in Alphabet
    ensures IsValidId(id)
  {
    forall j | 0 <= j < |id| ensures IsIdChar(id[j]) {
      var k :| 0 <= k < |Alphabet| && Alphabet[k] == id[j];
      assert Alphabet[k] == if k < 10 then ('0' as int + k) as char else ('a' as int + k - 10) as char;
    }
  }

  /** True when every character of `id` from position `from` on is an id character. */
  function IdCharsFrom(id: string, from: nat): (ok: bool)
    requires from <= |id|
    ensures ok <==> forall j :: from <= j < |id| ==> IsIdChar(id[j])
    decreases |id| - from
  {
    if from == |id| then true
    else if !IsIdChar(id[from]) then false
    else IdCharsFrom(id, from + 1)
  }

  /** `IsValidId`: rejects null or empty strings, then overlong ones, then any bad character. */
  function IsValidId(id: string): (ok: bool)
    ensures ok <==> MinLength <= |id| <= MaxLength && forall j :: 0 <= j < |id| ==> IsIdChar(id[j])
  {
    if |id| == 0 then false
    else if |id| < MinLength || |id| > MaxLength then false
    else IdCharsFrom(id, 0)
  }

  /** A valid prefix followed by a generated part is valid while the total stays within 64. */
  lemma ValidConcat(a: string, b: string)
    requires IsValidId(a) && IsValidId(b) && |a| + |b| <= MaxLength
    ensures IsValidId(a + b)
  {
    assert forall j :: 0 <= j < |a + b| ==> (a + b)[j] == (if j < |a| then a[j] else b[j - |a|]);
  }
}
