/** The two `String` operations the alert test relies on: `toLowerCase` and
    `contains`. Case folding is modelled for ASCII letters only. */
module JavaStrings {

  /** An ASCII capital letter, the only characters the model's case folding changes. */
  predicate IsUpper(c: char) {
    'A' <= c <= 'Z'
  }

  /** One character of `toLowerCase`. */
  function LowerChar(c: char): (d: char)
    ensures !IsUpper(d)
    ensures !IsUpper(c) ==> d == c
    ensures IsUpper(c) ==> d as int == c as int + 32
  {
    if IsUpper(c) then (c as int + 32) as char else c
  }

  /** `toLowerCase`: position by position, capitals become small letters and
      every other character is kept. */
  function ToLower(s: string): (r: string)
    ensures |r| == |s|
    ensures forall i :: 0 <= i < |s| ==> r[i] == LowerChar(s[i])
    ensures forall i :: 0 <= i < |r| ==> !IsUpper(r[i])
  {
    seq(|s|, i requires 0 <= i < |s| => LowerChar(s[i]))
  }

  /** Lowercasing twice is lowercasing once. */
  lemma ToLowerIdempotent(s: string)
    ensures ToLower(ToLower(s)) == ToLower(s)
  {
    var once := ToLower(s);
    var twice := ToLower(once);
    forall i | 0 <= i < |s|
      ensures twice[i] == once[i]
    {
      assert !IsUpper(once[i]);
    }
  }

  /** `k` occurs in `s` starting at index `i`. */
  predicate OccursAt(s: string, k: string, i: int) {
    0 <= i && i + |k| <= |s| && s[i..i + |k|] == k
  }

  /** The scan behind `contains`: is there an occurrence of `k` starting at `from` or later? */
  function ContainsFrom(s: string, k: string, from: nat): (r: bool)
    ensures r <==> exists i :: from <= i && OccursAt(s, k, i)
    decreases |s| - from
  {
    if from + |k| > |s| then false
    else if s[from..from + |k|] == k then assert OccursAt(s, k, from); true
    else ContainsFrom(s, k, from + 1)
  }

  /** `s.contains(k)`: `k` is a substring of `s`; the empty string is a substring of every string. */
  function Contains(s: string, k: string): (r: bool)
    ensures r <==> exists i :: OccursAt(s, k, i)
    ensures k == [] ==> r
  {
    assert k == [] ==> OccursAt(s, k, 0);
    ContainsFrom(s, k, 0)
  }
}
