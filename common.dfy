/**
 * Value types and string helpers shared by the screens of the client:
 * optional values, fetch outcomes, JavaScript Dates reduced to their time
 * value, picker results, and the few string operations the screens use
 * (`split("/").pop()`, `toLowerCase`, `includes`).
 */
module Common {

  datatype Option<T> = None | Some(value: T)

  /** The outcome of an HTTP request: the caught failure, or the response payload. */
  datatype Fetch<T> = Failed | Received(data: T)

  /** A JavaScript Date reduced to its time value in milliseconds; `Invalid` has time value NaN. */
  datatype Date = At(ms: int) | Invalid

  /** `a < b` on two Dates: their time values compared, false whenever one of them is NaN. */
  predicate Before(a: Date, b: Date)
  {
    a.At? && b.At? && a.ms < b.ms
  }

  /**
   * The end-date picker of a form: a choice before the start date is refused
   * (the previous end date stays), any other choice is taken.
   */
  function PickedEnd(startDate: Date, oldEnd: Date, chosen: Date): (r: Date)
    ensures r == chosen || r == oldEnd
    ensures Before(chosen, startDate) ==> r == oldEnd
    ensures !Before(chosen, startDate) ==> r == chosen
  {
    if Before(chosen, startDate) then oldEnd else chosen
  }

  /** The end-date picker never makes an end date that was not before the start date come before it. */
  lemma PickedEndKeepsOrder(startDate: Date, oldEnd: Date, chosen: Date)
    requires !Before(oldEnd, startDate)
    ensures !Before(PickedEnd(startDate, oldEnd, chosen), startDate)
  {
  }

  /** The outcome of a form's checks before it is submitted. */
  datatype Validation = MissingField | EndBeforeStart | Accepted

  /** An area of a project as listed by `all-area-descriptions-of-one-project`. */
  datatype Area = Area(areaId: string, description: string)

  /** JavaScript truthiness of a string read from storage: present and not empty. */
  predicate Truthy(s: Option<string>)
  {
    s.Some? && s.value != ""
  }

  /**
   * What an image picker reports: the user cancelled, or the assets picked
   * (the picker never reports success with no asset, so the first is separate).
   */
  datatype PickResult = Cancelled | Picked(first: string, more: seq<string>)
  {
    function Uris(): (uris: seq<string>)
      requires Picked?
    {
      [first] + more
    }
  }

  /**
   * A picker that keeps one image: the list is emptied when the picker opens,
   * stays empty when it is cancelled, and otherwise holds the first asset.
   */
  function SinglePick(r: PickResult): (uris: seq<string>)
    ensures |uris| <= 1
    ensures uris == [] <==> r.Cancelled?
    ensures r.Picked? ==> uris == [r.first]
  {
    if r.Cancelled? then [] else [r.first]
  }

  /** `String(x)` of a value read from storage, which is a string or `null`. */
  function StringOf(s: Option<string>): (r: string)
    ensures s.Some? ==> r == s.value
    ensures s.None? ==> r == "null"
  {
    if s.Some? then s.value else "null"
  }

  /** One file of a multipart form: the form field, and the `{ uri, type, name }` object. */
  datatype FilePart = FilePart(field: string, uri: string, mimeType: string, name: string)

  /** The part for an image at `uri`, named after the last segment of its path. */
  function ImagePart(field: string, mimeType: string, uri: string): (part: FilePart)
  {
    FilePart(field, uri, mimeType, LastSegment(uri))
  }

  /** An image part for `dir/file` is named `file`. */
  lemma ImagePartNamedAfterFile(field: string, mimeType: string, dir: string, file: string)
    requires '/' !in file
    ensures ImagePart(field, mimeType, dir + "/" + file).name == file
  {
    LastSegmentAfterSlash(dir, file);
  }

  /** `s.split("/").pop()`: the text after the last '/', or all of `s` when it has none. */
  function LastSegment(s: string): (r: string)
    ensures '/' !in r
    ensures EndsWith(s, r)
    ensures |r| < |s| ==> s[|s| - |r| - 1] == '/'
  {
    if s == [] then []
    else if s[|s| - 1] == '/' then []
    else LastSegment(s[..|s| - 1]) + [s[|s| - 1]]
  }

  /** The segment after the last separator is exactly what follows the separator. */
  lemma {:induction false} LastSegmentAfterSlash(prefix: string, name: string)
    requires '/' !in name
    ensures LastSegment(prefix + "/" + name) == name
    decreases |name|
  {
    var s := prefix + "/" + name;
    if name != [] {
      var init := name[..|name| - 1];
      assert s[..|s| - 1] == prefix + "/" + init;
      assert s[|s| - 1] == name[|name| - 1];
      LastSegmentAfterSlash(prefix, init);
      assert init + [name[|name| - 1]] == name;
    }
  }

  function LowerChar(c: char): (d: char)
    ensures 'A' <= c <= 'Z' ==> d as int == c as int + 32
    ensures !('A' <= c <= 'Z') ==> d == c
  {
    if 'A' <= c <= 'Z' then (c as int + 32) as char else c
  }

  /** `toLowerCase` on the ASCII letters. */
  function ToLower(s: string): (r: string)
    ensures |r| == |s|
    ensures forall i :: 0 <= i < |s| ==> r[i] == LowerChar(s[i])
  {
    if s == [] then [] else [LowerChar(s[0])] + ToLower(s[1..])
  }

  predicate EndsWith(s: string, p: string)
  {
    |p| <= |s| && s[|s| - |p|..] == p
  }

  predicate StartsWith(s: string, p: string)
  {
    |p| <= |s| && s[..|p|] == p
  }

  /** `s.includes(p)`, by scanning the start positions from left to right. */
  predicate Includes(s: string, p: string)
    decreases |s|
  {
    StartsWith(s, p) || (s != [] && Includes(s[1..], p))
  }

  predicate OccursAt(s: string, p: string, i: int)
  {
    0 <= i <= |s| - |p| && s[i..i + |p|] == p
  }

  /** `Includes` holds exactly when `p` occurs at some position of `s`. */
  lemma {:induction false} IncludesIffOccurs(s: string, p: string)
    ensures Includes(s, p) <==> exists i :: OccursAt(s, p, i)
    decreases |s|
  {
    if StartsWith(s, p) {
      assert OccursAt(s, p, 0);
    } else if s == [] {
    } else {
      IncludesIffOccurs(s[1..], p);
      if Includes(s[1..], p) {
        var i :| OccursAt(s[1..], p, i);
        assert s[i + 1..i + 1 + |p|] == s[1..][i..i + |p|];
        assert OccursAt(s, p, i + 1);
      }
      if exists i :: OccursAt(s, p, i) {
        var i :| OccursAt(s, p, i);
        assert i != 0;
        assert s[1..][i - 1..i - 1 + |p|] == s[i..i + |p|];
        assert OccursAt(s[1..], p, i - 1);
      }
    }
  }

  /** `a` lists some of the elements of `b`, in the order they have in `b`. */
  predicate IsSubsequence<T(==)>(a: seq<T>, b: seq<T>)
    decreases |b|
  {
    if a == [] then true
    else if b == [] then false
    else if a[0] == b[0] then IsSubsequence(a[1..], b[1..])
    else IsSubsequence(a, b[1..])
  }

  lemma {:induction false} SubsequenceReflexive<T>(s: seq<T>)
    ensures IsSubsequence(s, s)
    decreases |s|
  {
    if s != [] {
      SubsequenceReflexive(s[1..]);
    }
  }

  /** Every element of a subsequence is an element of the sequence. */
  lemma {:induction false} SubsequenceElements<T>(a: seq<T>, b: seq<T>, i: int)
    requires IsSubsequence(a, b) && 0 <= i < |a|
    ensures a[i] in b
    decreases |b|
  {
    if a[0] == b[0] {
      if i > 0 {
        SubsequenceElements(a[1..], b[1..], i - 1);
      }
    } else {
      SubsequenceElements(a, b[1..], i);
    }
  }

  /** Appending a first element to `b` keeps every subsequence of `b` a subsequence. */
  lemma {:induction false} SubsequenceOfCons<T>(a: seq<T>, x: T, b: seq<T>)
    requires IsSubsequence(a, b)
    ensures IsSubsequence(a, [x] + b)
    decreases |b|, 1
  {
    if a != [] && a[0] == x {
      SubsequenceDropFirst(a, b);
      assert ([x] + b)[1..] == b;
    } else if a != [] {
      assert ([x] + b)[1..] == b;
    }
  }

  lemma {:induction false} SubsequenceDropFirst<T>(a: seq<T>, b: seq<T>)
    requires a != [] && IsSubsequence(a, b)
    ensures IsSubsequence(a[1..], b)
    decreases |b|, 0
  {
    if a[0] == b[0] {
      SubsequenceOfCons(a[1..], b[0], b[1..]);
      assert [b[0]] + b[1..] == b;
    } else {
      SubsequenceDropFirst(a, b[1..]);
      SubsequenceOfCons(a[1..], b[0], b[1..]);
      assert [b[0]] + b[1..] == b;
    }
  }

  predicate Distinct<T(==)>(s: seq<T>)
  {
    forall i, j :: 0 <= i < j < |s| ==> s[i] != s[j]
  }

  /**
   * `s.filter(keep)`: the elements of `s` that `keep` accepts, each as often as
   * in `s`, in the order of `s`.
   */
  function Filter<T(==,!new)>(s: seq<T>, keep: T -> bool): (r: seq<T>)
    ensures IsSubsequence(r, s)
    ensures forall x :: x in r <==> x in s && keep(x)
    ensures Distinct(s) ==> Distinct(r)
    decreases |s|
  {
    if s == [] then []
    else
      var rest := Filter(s[1..], keep);
      assert s == [s[0]] + s[1..];
      SubsequenceOfCons(rest, s[0], s[1..]);
      if keep(s[0]) then
        assert ([s[0]] + rest)[1..] == rest;
        assert Distinct(s) ==> s[0] !in s[1..];
        [s[0]] + rest
      else
        rest
  }

  /** `Filter` keeps every accepted element as many times as it occurs, and no other. */
  lemma {:induction false} FilterCounts<T(!new)>(s: seq<T>, keep: T -> bool, x: T)
    ensures multiset(Filter(s, keep))[x] == if keep(x) then multiset(s)[x] else 0
    decreases |s|
  {
    if s != [] {
      FilterCounts(s[1..], keep, x);
      assert s == [s[0]] + s[1..];
      assert multiset(s) == multiset([s[0]]) + multiset(s[1..]);
      if keep(s[0]) {
        assert Filter(s, keep) == [s[0]] + Filter(s[1..], keep);
        assert multiset(Filter(s, keep)) == multiset([s[0]]) + multiset(Filter(s[1..], keep));
      }
    }
  }
}
