/** The small part of Python's value model that the agent backend relies on:
    JSON-shaped dynamic values, the exceptions the core can raise, truthiness,
    the `in`, `[]` and `len` operators on those values, and the string
    operations `str.strip` and `str.join`. */
module Py {
  import opened Wrappers

  /** A dynamically typed Python value as it arrives from a JSON body
      (floating-point numbers are not modelled). Dictionary keys are strings. */
  datatype Json =
    | JNone
    | JBool(b: bool)
    | JInt(i: int)
    | JStr(s: string)
    | JList(items: seq<Json>)
    | JDict(fields: map<string, Json>)

  /** The Python exceptions the modelled code raises or lets escape. */
  datatype PyError =
    | TypeError
    | KeyError
    | IndexError
    | ValueError(message: string)
    | AttributeError(message: string)
    | OxpError(message: string)
    | ApiStatusError(body: Option<Json>)

  /** Python truthiness: `None`, `False`, `0` and empty containers are false. */
  predicate Truthy(v: Json): (t: bool)
    ensures Len(v).Ok? ==> (t <==> Len(v).value != 0)
    ensures v.JNone? ==> !t
    ensures v.JInt? ==> (t <==> v.i != 0)
    ensures v.JBool? ==> (t <==> v.b)
  {
    match v
    case JNone => false
    case JBool(b) => b
    case JInt(i) => i != 0
    case JStr(s) => s != ""
    case JList(xs) => xs != []
    case JDict(m) => m != map[]
  }

  /** `k in s` for two strings: `k` occurs in `s` as a contiguous substring. */
  predicate IsSubstring(k: string, s: string)
    decreases |s|
  {
    |k| <= |s| && (s[..|k|] == k || IsSubstring(k, s[1..]))
  }

  /** `k` occurs in `s` starting at index `i`. */
  predicate OccursAt(k: string, s: string, i: int) {
    0 <= i && i + |k| <= |s| && s[i..i + |k|] == k
  }

  /** The recursive definition agrees with "occurs at some index". */
  lemma {:induction false} IsSubstringAt(k: string, s: string)
    ensures IsSubstring(k, s) <==> exists i :: OccursAt(k, s, i)
    decreases |s|
  {
    if IsSubstring(k, s) {
      if s[..|k|] == k {
        assert OccursAt(k, s, 0);
      } else {
        IsSubstringAt(k, s[1..]);
        var i :| OccursAt(k, s[1..], i);
        assert s[i + 1..i + 1 + |k|] == s[1..][i..i + |k|];
        assert OccursAt(k, s, i + 1);
      }
    } else if exists i :: OccursAt(k, s, i) {
      var i :| OccursAt(k, s, i);
      if i > 0 {
        IsSubstringAt(k, s[1..]);
        assert s[1..][i - 1..i - 1 + |k|] == s[i..i + |k|];
        assert OccursAt(k, s[1..], i - 1);
      }
      assert false;
    }
  }

  /** `key in container` for a string key. */
  function Contains(container: Json, key: string): (r: Result<bool, PyError>)
    ensures r.Err? <==> !(container.JDict? || container.JList? || container.JStr?)
    ensures r.Err? ==> r.error == TypeError
    ensures container.JDict? ==> r == Ok(key in container.fields)
    ensures container.JStr? ==> r == Ok(exists i :: OccursAt(key, container.s, i))
    ensures container.JList? ==> r == Ok(JStr(key) in container.items)
  {
    match container
    case JDict(m) => Ok(key in m)
    case JList(xs) => Ok(JStr(key) in xs)
    case JStr(s) => IsSubstringAt(key, s); Ok(IsSubstring(key, s))
    case _ => Err(TypeError)
  }

  /** `container[key]` for a string key: only a dictionary accepts one. */
  function GetItem(container: Json, key: string): (r: Result<Json, PyError>)
    ensures r.Ok? <==> container.JDict? && key in container.fields
    ensures r.Ok? ==> r.value == container.fields[key]
    ensures r.Err? ==> r.error == (if container.JDict? then KeyError else TypeError)
  {
    match container
    case JDict(m) => if key in m then Ok(m[key]) else Err(KeyError)
    case _ => Err(TypeError)
  }

  /** `container[i]` for a non-negative integer index. A dictionary with
      string keys has no integer key. */
  function ItemAt(container: Json, i: nat): (r: Result<Json, PyError>)
    ensures r.Ok? <==> !container.JDict? && Len(container).Ok? && i < Len(container).value
    ensures r.Ok? && container.JList? ==> r.value == container.items[i]
    ensures r.Ok? && container.JStr? ==> r.value == JStr([container.s[i]])
    ensures r.Err? ==> r.error == (if container.JDict? then KeyError
                                   else if Len(container).Ok? then IndexError
                                   else TypeError)
  {
    match container
    case JList(xs) => if i < |xs| then Ok(xs[i]) else Err(IndexError)
    case JStr(s) => if i < |s| then Ok(JStr([s[i]])) else Err(IndexError)
    case JDict(_) => Err(KeyError)
    case _ => Err(TypeError)
  }

  /** `len(v)`. */
  function Len(v: Json): (r: Result<nat, PyError>)
    ensures r.Ok? <==> v.JStr? || v.JList? || v.JDict?
    ensures v.JStr? ==> r == Ok(|v.s|)
    ensures v.JList? ==> r == Ok(|v.items|)
    ensures v.JDict? ==> r == Ok(|v.fields|)
    ensures r.Err? ==> r.error == TypeError
  {
    match v
    case JStr(s) => Ok(|s|)
    case JList(xs) => Ok(|xs|)
    case JDict(m) => Ok(|m|)
    case _ => Err(TypeError)
  }

  /** The characters `str.isspace` accepts, which `str.strip()` removes. */
  predicate IsSpace(c: char) {
    || ('\t' <= c <= '\r')
    || ('\U{1C}' <= c <= '\U{1F}')
    || c == ' '
    || c == '\U{85}'
    || c == '\U{A0}'
    || c == '\U{1680}'
    || ('\U{2000}' <= c <= '\U{200A}')
    || c == '\U{2028}'
    || c == '\U{2029}'
    || c == '\U{202F}'
    || c == '\U{205F}'
    || c == '\U{3000}'
  }

  /** Space, tab, newline and carriage return are whitespace; letters,
      digits, `/` and `_` are not. */
  lemma IsSpaceAscii(c: char)
    ensures c == ' ' || c == '\t' || c == '\n' || c == '\r' ==> IsSpace(c)
    ensures ('a' <= c <= 'z') || ('A' <= c <= 'Z') || ('0' <= c <= '9') || c == '/' || c == '_' ==> !IsSpace(c)
  {
  }

  /** `s.lstrip()`: the suffix left after dropping leading whitespace. */
  function StripStart(s: string): (r: string)
    ensures |r| <= |s| && r == s[|s| - |r|..]
    ensures forall k :: 0 <= k < |s| - |r| ==> IsSpace(s[k])
    ensures r == [] || !IsSpace(r[0])
    decreases |s|
  {
    if s != [] && IsSpace(s[0]) then StripStart(s[1..]) else s
  }

  /** `s.rstrip()`: the prefix left after dropping trailing whitespace. */
  function StripEnd(s: string): (r: string)
    ensures |r| <= |s| && r == s[..|r|]
    ensures forall k :: |r| <= k < |s| ==> IsSpace(s[k])
    ensures r == [] || !IsSpace(r[|r| - 1])
    decreases |s|
  {
    if s != [] && IsSpace(s[|s| - 1]) then StripEnd(s[..|s| - 1]) else s
  }

  /** `s.strip()`: the slice `s[i..j]` with only whitespace outside it and
      no whitespace at either of its ends. */
  function Strip(s: string): (r: string)
    ensures exists i, j :: TrimmedAt(s, i, j) && r == s[i..j]
    ensures r == [] || (!IsSpace(r[0]) && !IsSpace(r[|r| - 1]))
  {
    var a := StripStart(s);
    var r := StripEnd(a);
    StripSlice(s, a, r);
    var i := |s| - |a|;
    assert TrimmedAt(s, i, i + |r|);
    assert r != [] ==> r[0] == a[0];
    r
  }

  /** Only whitespace lies before index `i` and from index `j` on. */
  predicate TrimmedAt(s: string, i: int, j: int) {
    && 0 <= i <= j <= |s|
    && (forall k :: 0 <= k < i ==> IsSpace(s[k]))
    && (forall k :: j <= k < |s| ==> IsSpace(s[k]))
  }

  /** Where `Strip`'s two halves cut `s`. */
  lemma StripSlice(s: string, a: string, r: string)
    requires |a| <= |s| && a == s[|s| - |a|..]
    requires |r| <= |a| && r == a[..|r|]
    requires forall k :: |r| <= k < |a| ==> IsSpace(a[k])
    ensures r == s[|s| - |a|..|s| - |a| + |r|]
    ensures forall k :: |s| - |a| + |r| <= k < |s| ==> IsSpace(s[k])
  {
    SliceOfSuffix(s, a, r);
    var i := |s| - |a|;
    forall k | i + |r| <= k < |s|
      ensures IsSpace(s[k])
    {
      assert s[k] == a[k - i];
    }
  }

  lemma SliceOfSuffix<T>(s: seq<T>, a: seq<T>, r: seq<T>)
    requires |a| <= |s| && a == s[|s| - |a|..]
    requires |r| <= |a| && r == a[..|r|]
    ensures r == s[|s| - |a|..|s| - |a| + |r|]
  {
  }

  /** Stripping is idempotent. */
  lemma StripIdempotent(s: string)
    ensures Strip(Strip(s)) == Strip(s)
  {
    var r := Strip(s);
    if r != [] {
      assert StripStart(r) == r;
      assert StripEnd(r) == r;
    }
  }

  /** `"".join(parts)`: empty exactly when every part is, and a single part
      comes back as it is. */
  function Concat(parts: seq<string>): (r: string)
    ensures r == "" <==> forall k :: 0 <= k < |parts| ==> parts[k] == ""
    ensures |parts| == 1 ==> r == parts[0]
    decreases |parts|
  {
    if parts == [] then ""
    else
      assert forall k :: 1 <= k < |parts| ==> parts[1..][k - 1] == parts[k];
      parts[0] + Concat(parts[1..])
  }

  /** `sep.join(parts)`: no parts give the empty text, and the text starts
      with the first part. */
  function JoinWith(sep: string, parts: seq<string>): (r: string)
    ensures parts == [] ==> r == ""
    ensures |parts| == 1 ==> r == parts[0]
    ensures parts != [] ==> |parts[0]| <= |r| && r[..|parts[0]|] == parts[0]
    decreases |parts|
  {
    if parts == [] then ""
    else if |parts| == 1 then parts[0]
    else
      var rest := JoinWith(sep, parts[1..]);
      assert (parts[0] + sep + rest)[..|parts[0]|] == parts[0];
      parts[0] + sep + rest
  }

  /** Joining with the empty separator is concatenation. */
  lemma {:induction false} JoinWithEmptyIsConcat(parts: seq<string>)
    ensures JoinWith("", parts) == Concat(parts)
    decreases |parts|
  {
    if |parts| > 1 {
      JoinWithEmptyIsConcat(parts[1..]);
      assert parts[0] + "" == parts[0];
    }
  }

  /** The first index of `c` in `s`, if any: where `s.split(c, maxsplit=1)`
      cuts. */
  function IndexOf(s: string, c: char): (r: Option<nat>)
    ensures r.None? <==> c !in s
    ensures r.Some? ==> r.value < |s| && s[r.value] == c && c !in s[..r.value]
    decreases |s|
  {
    if s == [] then None
    else if s[0] == c then Some(0)
    else
      match IndexOf(s[1..], c)
      case None => None
      case Some(i) =>
        assert s[..i + 1] == [s[0]] + s[1..][..i];
        Some(i + 1)
  }

  /** The first `c` in `a + [c] + b` is the one after `a` when `a` has none. */
  lemma IndexOfAfterPrefix(a: string, c: char, b: string)
    requires c !in a
    ensures IndexOf(a + [c] + b, c) == Some(|a|)
  {
    var s := a + [c] + b;
    assert s[|a|] == c;
  }

  /** The pieces of `s` between the occurrences of `sep`: a reference
      definition, used to state how many lines a joined text has. */
  function Split(s: string, sep: char): (r: seq<string>)
    ensures |r| >= 1
    decreases |s|
  {
    match IndexOf(s, sep)
    case None => [s]
    case Some(i) => [s[..i]] + Split(s[i + 1..], sep)
  }

  /** Splitting a join on its separator gives the parts back when no part
      contains the separator. */
  lemma {:induction false} SplitJoin(parts: seq<string>, sep: char)
    requires |parts| >= 1
    requires forall k :: 0 <= k < |parts| ==> sep !in parts[k]
    ensures Split(JoinWith([sep], parts), sep) == parts
    decreases |parts|
  {
    if |parts| > 1 {
      var rest := JoinWith([sep], parts[1..]);
      assert JoinWith([sep], parts) == parts[0] + [sep] + rest;
      SplitAtFirst(parts[0], sep, rest);
      SplitJoin(parts[1..], sep);
      assert parts == [parts[0]] + parts[1..];
    }
  }

  /** Splitting `a + [sep] + rest` with no `sep` in `a` cuts after `a`. */
  lemma SplitAtFirst(a: string, sep: char, rest: string)
    requires sep !in a
    ensures Split(a + [sep] + rest, sep) == [a] + Split(rest, sep)
  {
    var s := a + [sep] + rest;
    IndexOfAfterPrefix(a, sep, rest);
    assert s[..|a|] == a;
    assert s[|a| + 1..] == rest;
  }
}
