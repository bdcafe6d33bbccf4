/** Small helpers for the JavaScript idioms the client code relies on:
    optional values, `x || 0`, truthiness, `Array.prototype.find` and
    `String.prototype.trim`. */
module Common {

  datatype Option<+T> = None | Some(value: T)

  /** An HTTP exchange as the client sees it: a body, or an error response. */
  datatype Reply<+T> = Ok(body: T) | Failed(status: int)

  /** `value || 0` on an optional number: a missing value counts as 0. */
  function OrZero(o: Option<int>): int
  {
    if o.Some? then o.value else 0
  }

  /** JavaScript truthiness of an optional number (absent, or 0, is falsy). */
  predicate TruthyNum(o: Option<int>)
  {
    o.Some? && o.value != 0
  }

  /** JavaScript truthiness of an optional string (absent, or "", is falsy). */
  predicate TruthyStr(o: Option<string>)
  {
    o.Some? && o.value != ""
  }

  /** `Array.prototype.findIndex`: the first index whose element satisfies `p`. */
  function FindIndex<T>(s: seq<T>, p: T -> bool): (r: Option<nat>)
    ensures r.Some? ==> r.value < |s| && p(s[r.value])
    ensures r.Some? ==> forall j :: 0 <= j < r.value ==> !p(s[j])
    ensures r.None? ==> forall j :: 0 <= j < |s| ==> !p(s[j])
  {
    if |s| == 0 then None
    else if p(s[0]) then Some(0)
    else
      match FindIndex(s[1..], p)
      case None => None
      case Some(k) => Some(k + 1)
  }

  /** `Array.prototype.find`: the first element satisfying `p`, if any. */
  function Find<T>(s: seq<T>, p: T -> bool): (r: Option<T>)
    ensures r.Some? ==> r.value in s && p(r.value)
    ensures r.None? ==> forall x :: x in s ==> !p(x)
  {
    match FindIndex(s, p)
    case None => None
    case Some(i) => Some(s[i])
  }

  /** The characters `String.prototype.trim` removes: ECMAScript WhiteSpace
      (tab, vertical tab, form feed, space, no-break space, byte-order mark and
      the Unicode space separators) and LineTerminator (LF, CR, LS, PS). */
  predicate IsJsSpace(c: char)
  {
    c == '\t' || c == '\U{000B}' || c == '\U{000C}' || c == ' ' || c == '\U{00A0}' ||
    c == '\U{FEFF}' || c == '\U{1680}' || ('\U{2000}' <= c <= '\U{200A}') ||
    c == '\U{202F}' || c == '\U{205F}' || c == '\U{3000}' ||
    c == '\n' || c == '\r' || c == '\U{2028}' || c == '\U{2029}'
  }

  predicate IsBlank(s: string)
  {
    forall i :: 0 <= i < |s| ==> IsJsSpace(s[i])
  }

  function TrimStart(s: string): string
  {
    if |s| > 0 && IsJsSpace(s[0]) then TrimStart(s[1..]) else s
  }

  function TrimEnd(s: string): string
  {
    if |s| > 0 && IsJsSpace(s[|s| - 1]) then TrimEnd(s[..|s| - 1]) else s
  }

  /** `s.trim()`. */
  function Trim(s: string): string
  {
    TrimEnd(TrimStart(s))
  }

  lemma {:induction false} TrimStartEmpty(s: string)
    ensures TrimStart(s) == "" <==> IsBlank(s)
    ensures TrimStart(s) != "" ==> !IsJsSpace(TrimStart(s)[0])
  {
    if |s| > 0 && IsJsSpace(s[0]) {
      TrimStartEmpty(s[1..]);
      if IsBlank(s[1..]) {
        assert forall i :: 0 <= i < |s| ==> IsJsSpace(s[i]) by {
          forall i | 0 <= i < |s| ensures IsJsSpace(s[i]) {
            if i > 0 { assert s[i] == s[1..][i - 1]; }
          }
        }
      } else {
        var k :| 0 <= k < |s[1..]| && !IsJsSpace(s[1..][k]);
        assert !IsJsSpace(s[k + 1]);
      }
    }
  }

  lemma {:induction false} TrimEndKeepsHead(s: string)
    requires |s| > 0 && !IsJsSpace(s[0])
    ensures TrimEnd(s) != ""
  {
    if |s| > 1 && IsJsSpace(s[|s| - 1]) {
      TrimEndKeepsHead(s[..|s| - 1]);
    }
  }

  /** A trimmed string is empty exactly when every character is JavaScript
      white space: the test behind `if (!comment.trim())`. */
  lemma TrimEmptyIffBlank(s: string)
    ensures Trim(s) == "" <==> IsBlank(s)
  {
    TrimStartEmpty(s);
    if TrimStart(s) != "" {
      TrimEndKeepsHead(TrimStart(s));
    }
  }

  /** Where `Array.prototype.splice(index, 1)` starts, as `FormArray.removeAt`
      uses it: a negative index counts from the end, clamped at 0; an index
      past the end is clamped to the length. */
  function SpliceStart(index: int, len: nat): (r: nat)
    ensures r <= len
    ensures 0 <= index <= len ==> r == index
    ensures -(len as int) <= index < 0 ==> r as int == len as int + index
    ensures index < -(len as int) ==> r == 0
    ensures index > len ==> r == len
  {
    if index < 0 then (if len as int + index < 0 then 0 else len as int + index)
    else if index > len then len
    else index
  }

  /** `FormArray.removeAt(index)` on the list of controls. */
  function RemoveAt<T>(s: seq<T>, index: int): (r: seq<T>)
    ensures SpliceStart(index, |s|) < |s| ==> |r| == |s| - 1
    ensures SpliceStart(index, |s|) == |s| ==> r == s
    ensures forall j :: 0 <= j < SpliceStart(index, |s|) && j < |r| ==> r[j] == s[j]
    ensures forall j :: SpliceStart(index, |s|) <= j < |r| ==> r[j] == s[j + 1]
  {
    var k := SpliceStart(index, |s|);
    if k < |s| then s[..k] + s[k + 1..] else s
  }
}
