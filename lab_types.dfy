/** Values shared by the whole session model: the coarse step of the app,
    the two experiment modes, the three production columns, the three shape
    buttons, the upper-casing applied to letter input, and the record that
    a finished run leaves in the lab results. */
module LabTypes {

  datatype Option<T> = None | Some(value: T)

  /** The screen the app is on: the setup form, a run in progress, or the
      session report. */
  datatype Step = Setup | Play | Summary

  datatype Mode = Chaos | Focus

  /** The three production columns, in the order the rotation visits them. */
  datatype Column = Numbers | Letters | Shapes

  /** The three buttons under the shapes column. */
  datatype Shape = Circle | Square | Triangle

  /** Number of symbols each column should end up with. */
  const Target: nat := 20

  /** One row of the lab results: who ran, in which mode, how long it took
      and how many entries each column received. */
  datatype RunRecord = RunRecord(name: string, mode: Mode, time: nat,
                                 nCount: nat, lCount: nat, sCount: nat)

  /** The texts the shape buttons append: white circle, white square and
      white up-pointing triangle. */
  predicate IsShapeSymbol(t: string)
  {
    t == "\U{25CB}" || t == "\U{25A1}" || t == "\U{25B3}"
  }

  /** The symbol a shape button appends; every button has its own. */
  function Symbol(sh: Shape): (r: string)
    ensures |r| == 1 && IsShapeSymbol(r)
  {
    match sh
    case Circle => "\U{25CB}"
    case Square => "\U{25A1}"
    case Triangle => "\U{25B3}"
  }

  /** Distinct buttons append distinct symbols, and every shape symbol
      belongs to some button. */
  lemma SymbolBijective(a: Shape, b: Shape, t: string)
    ensures Symbol(a) == Symbol(b) ==> a == b
    ensures IsShapeSymbol(t) ==> t == Symbol(Circle) || t == Symbol(Square) || t == Symbol(Triangle)
  {
  }

  predicate IsLowerAscii(c: char)
  {
    'a' <= c <= 'z'
  }

  /** No entry in s is an ASCII lower-case letter. */
  predicate NoLowerAscii(s: string)
  {
    forall i :: 0 <= i < |s| ==> !IsLowerAscii(s[i])
  }

  /** The upper-case form of one character (ASCII letters only). */
  function UpperChar(c: char): (r: char)
    ensures !IsLowerAscii(r)
    ensures !IsLowerAscii(c) ==> r == c
    ensures IsLowerAscii(c) ==> 'A' <= r <= 'Z' && r as int - 'A' as int == c as int - 'a' as int
  {
    if IsLowerAscii(c) then (c as int - 32) as char else c
  }

  /** The upper-case form of a string, character by character. */
  function Upper(s: string): (r: string)
    ensures |r| == |s|
    ensures forall i :: 0 <= i < |s| ==> r[i] == UpperChar(s[i])
    ensures NoLowerAscii(r)
  {
    if s == [] then [] else [UpperChar(s[0])] + Upper(s[1..])
  }

  /** Upper-casing leaves a string with no lower-case letter unchanged, so
      upper-casing twice is the same as once. */
  lemma UpperFixesUpper(s: string)
    requires NoLowerAscii(s)
    ensures Upper(s) == s
  {
    assert forall i :: 0 <= i < |s| ==> Upper(s)[i] == s[i];
  }

  lemma UpperIdempotent(s: string)
    ensures Upper(Upper(s)) == Upper(s)
  {
    UpperFixesUpper(Upper(s));
  }

  /** The summary delta of a column with `count` entries: negative when the
      column is incomplete, positive when it spilled over the target, zero
      when it holds exactly the target. */
  function Delta(count: nat): (d: int)
    ensures d < 0 <==> count < Target
    ensures d > 0 <==> count > Target
    ensures d == 0 <==> count == Target
  {
    count - Target
  }
}
