/** The few JavaScript value semantics the adapters rely on: truthiness, the `||`
    operator and String.prototype.trim (ECMA-262, sections 7.1.2, 13.13 and 22.1.3.32). */
module JsValues {

  /** A JavaScript value as the adapters see it.  Numbers are integers here; `Obj`
      stands for any object or array, which JavaScript always treats as true. */
  datatype Js = Undefined | Null | Bool(b: bool) | Num(n: int) | Str(s: string) | Obj

  /** ToBoolean: only undefined, null, false, 0 and the empty string are false. */
  predicate Truthy(v: Js) {
    match v
    case Undefined => false
    case Null => false
    case Bool(b) => b
    case Num(n) => n != 0
    case Str(s) => s != ""
    case Obj => true
  }

  /** `a || b`: the left operand when it is true, otherwise the right one. */
  function Or(a: Js, b: Js): (r: Js)
    ensures r == a || r == b
    ensures Truthy(r) <==> Truthy(a) || Truthy(b)
    ensures Truthy(a) ==> r == a
    ensures !Truthy(a) ==> r == b
  {
    if Truthy(a) then a else b
  }

  /** The code points trim removes: WhiteSpace (tab, vertical tab, form feed, space,
      no-break space, zero-width no-break space and the Zs separators) and
      LineTerminator (line feed, carriage return, line and paragraph separators). */
  const WhiteSpace: set<char> :=
    {'\t', '\n', '\U{000B}', '\U{000C}', '\r', ' ', '\U{00A0}', '\U{1680}',
     '\U{2000}', '\U{2001}', '\U{2002}', '\U{2003}', '\U{2004}', '\U{2005}', '\U{2006}',
     '\U{2007}', '\U{2008}', '\U{2009}', '\U{200A}', '\U{2028}', '\U{2029}', '\U{202F}',
     '\U{205F}', '\U{3000}', '\U{FEFF}'}

  predicate IsWhite(c: char) {
    c in WhiteSpace
  }

  /** Every character of s from index lo up to (not including) hi is white space. */
  predicate WhiteBetween(s: string, lo: int, hi: int) {
    forall k :: lo <= k < hi && 0 <= k < |s| ==> IsWhite(s[k])
  }

  predicate AllWhite(s: string) {
    WhiteBetween(s, 0, |s|)
  }

  /** `part` occurs in `whole` starting at index i. */
  predicate OccursAt(part: string, whole: string, i: int) {
    0 <= i <= |whole| - |part| && whole[i..i + |part|] == part
  }

  /** The first index at or after i that does not hold white space (|s| if none). */
  function SkipWhite(s: string, i: nat): (k: nat)
    requires i <= |s|
    ensures i <= k <= |s| && WhiteBetween(s, i, k)
    ensures k < |s| ==> !IsWhite(s[k])
    decreases |s| - i
  {
    if i < |s| && IsWhite(s[i]) then SkipWhite(s, i + 1) else i
  }

  /** The index just after the last character before j, and not before lo, that does
      not hold white space (lo if none). */
  function SkipWhiteBack(s: string, lo: nat, j: nat): (k: nat)
    requires lo <= j <= |s|
    ensures lo <= k <= j && WhiteBetween(s, k, j)
    ensures k > lo ==> !IsWhite(s[k - 1])
    decreases j
  {
    if j > lo && IsWhite(s[j - 1]) then SkipWhiteBack(s, lo, j - 1) else j
  }

  /** Where trim's result starts and ends inside s. */
  function TrimStart(s: string): nat {
    SkipWhite(s, 0)
  }

  function TrimEnd(s: string): (k: nat)
    ensures TrimStart(s) <= k <= |s|
  {
    SkipWhiteBack(s, TrimStart(s), |s|)
  }

  /** String.prototype.trim: s without its leading and trailing white space. */
  function Trim(s: string): string {
    s[TrimStart(s)..TrimEnd(s)]
  }

  /** trim returns the substring of s that starts after the leading white space and
      stops before the trailing white space; it neither begins nor ends with white space. */
  lemma TrimIsSubstring(s: string)
    ensures var r := Trim(s);
      OccursAt(r, s, TrimStart(s)) && WhiteBetween(s, 0, TrimStart(s)) && WhiteBetween(s, TrimEnd(s), |s|)
      && (r != [] ==> !IsWhite(r[0]) && !IsWhite(r[|r| - 1]))
  {
    var lo, hi := TrimStart(s), TrimEnd(s);
    if lo < hi {
      assert Trim(s)[0] == s[lo];
      assert Trim(s)[hi - lo - 1] == s[hi - 1];
    }
  }

  /** A string trims to "" exactly when all of it is white space. */
  lemma TrimBlank(s: string)
    ensures Trim(s) == "" <==> AllWhite(s)
  {
    var lo, hi := TrimStart(s), TrimEnd(s);
    if Trim(s) == "" {
      assert lo == hi;
    }
  }

  /** Trimming twice is trimming once. */
  lemma TrimIdempotent(s: string)
    ensures Trim(Trim(s)) == Trim(s)
  {
    var r := Trim(s);
    var lo, hi := TrimStart(s), TrimEnd(s);
    if r != [] {
      assert r[0] == s[lo];
      assert TrimStart(r) == 0;
      assert r[|r| - 1] == s[hi - 1];
      assert TrimEnd(r) == |r|;
      assert r[0..|r|] == r;
    }
  }
}
