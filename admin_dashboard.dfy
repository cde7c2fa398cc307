/**
 * The data handling of frontend/src/pages/AdminDashboard.jsx: the product form
 * with its comma-separated lists, the FormData it submits, the three fetched
 * lists with their counts, and the list edits made after a successful call.
 */
module AdminDashboard {
  import opened Common
  import opened CartContext
  import opened OrderController
  import opened ProductsPage
  import ProductModel

  /** The statuses the admin can pick, all lower case. */
  const OrderStatuses: seq<string> := ["pending", "processing", "shipped", "delivered", "cancelled"]

  /** New orders are "Pending", which is none of the statuses offered. */
  lemma PendingNotOffered()
    ensures PendingStatus !in OrderStatuses
  {
    assert PendingStatus[0] == 'P';
  }

  // ---------------------------------------------------------------------------
  // Comma-separated lists
  // ---------------------------------------------------------------------------

  /** `s.split(',')`: the pieces between commas, at least one. */
  function SplitCommas(s: string): (r: seq<string>)
    ensures |r| >= 1
    ensures forall i :: 0 <= i < |r| ==> ',' !in r[i]
    decreases |s|
  {
    if |s| == 0 then [""]
    else if s[0] == ',' then [""] + SplitCommas(s[1..])
    else
      var rest := SplitCommas(s[1..]);
      [[s[0]] + rest[0]] + rest[1..]
  }

  /** `xs.join(sep)`. */
  function JoinWith(xs: seq<string>, sep: string): string
  {
    if |xs| == 0 then ""
    else if |xs| == 1 then xs[0]
    else xs[0] + sep + JoinWith(xs[1..], sep)
  }

  /** The string without its trailing white space. */
  function SkipTrailingSpaces(s: string): (r: string)
    ensures |r| <= |s| && r == s[..|r|]
    ensures r == [] || !IsSpace(r[|r| - 1])
  {
    if |s| == 0 || !IsSpace(s[|s| - 1]) then s else SkipTrailingSpaces(s[..|s| - 1])
  }

  /** Everything dropped from the end is white space. */
  lemma {:induction false} SkipTrailingDropsSpaces(s: string)
    ensures |SkipTrailingSpaces(s)| <= |s|
    ensures forall k :: |SkipTrailingSpaces(s)| <= k < |s| ==> IsSpace(s[k])
  {
    if |s| > 0 && IsSpace(s[|s| - 1]) {
      SkipTrailingDropsSpaces(s[..|s| - 1]);
    }
  }

  /** The trimmed text sits at a known offset, with only white space around it. */
  lemma TrimBounds(s: string)
    ensures var i := |s| - |SkipSpaces(s)|;
            var r := SkipTrailingSpaces(SkipSpaces(s));
            && 0 <= i <= i + |r| <= |s| && r == s[i..i + |r|]
            && (forall k :: 0 <= k < i ==> IsSpace(s[k]))
            && (forall k :: i + |r| <= k < |s| ==> IsSpace(s[k]))
  {
    var a := SkipSpaces(s);
    SkipSpacesSuffix(s);
    SkipSpacesLeading(s);
    var r := SkipTrailingSpaces(a);
    SkipTrailingDropsSpaces(a);
    InfixOfSuffix(s, a, r);
    SpacesAfterInfix(s, a, r);
  }

  lemma InfixOfSuffix(s: string, a: string, r: string)
    requires |a| <= |s| && a == s[|s| - |a|..]
    requires |r| <= |a| && r == a[..|r|]
    ensures r == s[|s| - |a|..|s| - |a| + |r|]
  {
  }

  lemma SpacesAfterInfix(s: string, a: string, r: string)
    requires |a| <= |s| && a == s[|s| - |a|..] && |r| <= |a|
    requires forall k :: |r| <= k < |a| ==> IsSpace(a[k])
    ensures forall k :: |s| - |a| + |r| <= k < |s| ==> IsSpace(s[k])
  {
    forall k | |s| - |a| + |r| <= k < |s| ensures IsSpace(s[k]) {
      assert s[k] == a[k - (|s| - |a|)];
    }
  }

  /**
   * `s.trim()`: the infix of s left once the white space at both ends is
   * removed; it neither starts nor ends with white space.
   */
  function Trim(s: string): (r: string)
    ensures r == [] || (!IsSpace(r[0]) && !IsSpace(r[|r| - 1]))
    ensures exists i, j :: && 0 <= i <= j <= |s| && r == s[i..j]
                           && (forall k :: 0 <= k < i ==> IsSpace(s[k]))
                           && (forall k :: j <= k < |s| ==> IsSpace(s[k]))
  {
    TrimBounds(s);
    var i := |s| - |SkipSpaces(s)|;
    var r := SkipTrailingSpaces(SkipSpaces(s));
    assert r == s[i..i + |r|];
    r
  }

  /** An element that survives a join and a parse unchanged. */
  predicate Plain(x: string)
  {
    x != "" && ',' !in x && !IsSpace(x[0]) && !IsSpace(x[|x| - 1])
  }

  /** `.map(s => s.trim()).filter(Boolean)`: trim every piece and drop the empty ones. */
  function TrimmedNonEmpty(pieces: seq<string>): (r: seq<string>)
    ensures |r| <= |pieces|
    ensures forall i :: 0 <= i < |r| ==> r[i] != "" && !IsSpace(r[i][0]) && !IsSpace(r[i][|r[i]| - 1])
  {
    if |pieces| == 0 then []
    else
      var t := Trim(pieces[0]);
      if t == "" then TrimmedNonEmpty(pieces[1..]) else [t] + TrimmedNonEmpty(pieces[1..])
  }

  /** Trimming and filtering work piece by piece, so the kept pieces stay in input order. */
  lemma {:induction false} TrimmedNonEmptyAppend(a: seq<string>, b: seq<string>)
    ensures TrimmedNonEmpty(a + b) == TrimmedNonEmpty(a) + TrimmedNonEmpty(b)
  {
    if |a| == 0 {
      assert a + b == b;
    } else {
      assert (a + b)[1..] == a[1..] + b;
      TrimmedNonEmptyAppend(a[1..], b);
    }
  }

  /** The kept strings are exactly the non-empty trimmed pieces. */
  lemma {:induction false} TrimmedNonEmptyMembers(pieces: seq<string>)
    ensures forall x :: x in TrimmedNonEmpty(pieces) <==>
              x != "" && exists i :: 0 <= i < |pieces| && Trim(pieces[i]) == x
  {
    if |pieces| > 0 {
      var rest := pieces[1..];
      TrimmedNonEmptyMembers(rest);
      TrimmedNonEmptyCons(pieces);
      forall x | x in TrimmedNonEmpty(pieces)
        ensures exists i :: 0 <= i < |pieces| && Trim(pieces[i]) == x
      {
        if x != Trim(pieces[0]) {
          var i :| 0 <= i < |rest| && Trim(rest[i]) == x;
          assert Trim(pieces[i + 1]) == x;
        }
      }
      forall x | x != "" && exists i :: 0 <= i < |pieces| && Trim(pieces[i]) == x
        ensures x in TrimmedNonEmpty(pieces)
      {
        var i :| 0 <= i < |pieces| && Trim(pieces[i]) == x;
        if i > 0 {
          assert Trim(rest[i - 1]) == x;
        }
      }
    }
  }

  lemma TrimmedNonEmptyCons(pieces: seq<string>)
    requires |pieces| > 0
    ensures TrimmedNonEmpty(pieces)
            == (if Trim(pieces[0]) == "" then [] else [Trim(pieces[0])]) + TrimmedNonEmpty(pieces[1..])
  {
  }

  /** Splitting at a comma splits the pieces. */
  lemma {:induction false} SplitAppend(a: string, b: string)
    ensures SplitCommas(a + "," + b) == SplitCommas(a) + SplitCommas(b)
    decreases |a|
  {
    if |a| == 0 {
      assert (a + "," + b)[1..] == b;
    } else {
      assert (a + "," + b)[1..] == a[1..] + "," + b;
      SplitAppend(a[1..], b);
    }
  }

  /** The list a comma field submits: the trimmed, non-empty pieces, in input order. */
  function ParseList(v: string): (r: seq<string>)
    ensures forall i :: 0 <= i < |r| ==> Plain(r[i])
  {
    var r := TrimmedNonEmpty(SplitCommas(v));
    assert forall i :: 0 <= i < |r| ==> ',' !in r[i] by {
      CommaFreeSurvives(SplitCommas(v));
    }
    r
  }

  /** A field with one more comma submits the lists of the two sides, one after the other. */
  lemma ParseListAppend(a: string, b: string)
    ensures ParseList(a + "," + b) == ParseList(a) + ParseList(b)
  {
    SplitAppend(a, b);
    TrimmedNonEmptyAppend(SplitCommas(a), SplitCommas(b));
  }

  /** A field without commas submits its trimmed text, or nothing when that is empty. */
  lemma ParseListNoComma(s: string)
    requires ',' !in s
    ensures ParseList(s) == if Trim(s) == "" then [] else [Trim(s)]
  {
    SplitNoComma(s);
    assert [s][1..] == [];
  }

  lemma TrimPlain(t: string)
    requires t == [] || (!IsSpace(t[0]) && !IsSpace(t[|t| - 1]))
    ensures Trim(t) == t
  {
    assert SkipSpaces(t) == t;
  }

  lemma {:induction false} CommaFreeSurvives(pieces: seq<string>)
    requires forall i :: 0 <= i < |pieces| ==> ',' !in pieces[i]
    ensures forall i :: 0 <= i < |TrimmedNonEmpty(pieces)| ==> ',' !in TrimmedNonEmpty(pieces)[i]
  {
    if |pieces| > 0 {
      CommaFreeSurvives(pieces[1..]);
      var t := Trim(pieces[0]);
      assert forall c :: c in t ==> c in pieces[0] by {
        var a := SkipSpaces(pieces[0]);
        SkipSpacesSuffix(pieces[0]);
        assert forall c :: c in a ==> c in pieces[0];
      }
    }
  }

  /** Splitting undoes a join with "," exactly. */
  lemma {:induction false} JoinSplit(s: string)
    ensures JoinWith(SplitCommas(s), ",") == s
    decreases |s|
  {
    if |s| > 0 {
      JoinSplit(s[1..]);
      var rest := SplitCommas(s[1..]);
      if s[0] != ',' {
        if |rest| == 1 {
          assert s == [s[0]] + rest[0];
        } else {
          assert [[s[0]] + rest[0]] + rest[1..] == [[s[0]] + rest[0]] + rest[1..];
          assert ([[s[0]] + rest[0]] + rest[1..])[1..] == rest[1..];
          assert JoinWith(rest, ",") == rest[0] + "," + JoinWith(rest[1..], ",");
        }
      } else {
        assert ([""] + rest)[1..] == rest;
      }
    }
  }

  lemma {:induction false} SplitNoComma(a: string)
    requires ',' !in a
    ensures SplitCommas(a) == [a]
    decreases |a|
  {
    if |a| > 0 {
      assert ',' !in a[1..] by {
        assert forall c :: c in a[1..] ==> c in a;
      }
      SplitNoComma(a[1..]);
      assert [a[0]] + a[1..] == a;
    }
  }

  lemma {:induction false} SplitCons(a: string, b: string)
    requires ',' !in a
    ensures SplitCommas(a + "," + b) == [a] + SplitCommas(b)
    decreases |a|
  {
    if |a| == 0 {
      assert (a + "," + b)[1..] == b;
    } else {
      assert ',' !in a[1..] by {
        assert forall c :: c in a[1..] ==> c in a;
      }
      assert (a + "," + b)[1..] == a[1..] + "," + b;
      SplitCons(a[1..], b);
      assert [a[0]] + a[1..] == a;
    }
  }

  /** An element read back with the blank the join put before it. */
  lemma TrimPadded(p: string, x: string)
    requires p == "" || p == " "
    requires Plain(x)
    ensures Trim(p + x) == x && ',' !in p + x
  {
    TrimPlain(x);
    if p == " " {
      assert (p + x)[1..] == x;
      assert SkipSpaces(p + x) == SkipSpaces(x);
    } else {
      assert p + x == x;
    }
  }

  lemma TrimmedCons(a: string, rest: seq<string>)
    requires Trim(a) != ""
    ensures TrimmedNonEmpty([a] + rest) == [Trim(a)] + TrimmedNonEmpty(rest)
  {
    assert ([a] + rest)[1..] == rest;
  }

  lemma JoinCons(head: string, more: seq<string>)
    requires |more| >= 1
    ensures JoinWith([head] + more, ", ") == head + ", " + JoinWith(more, ", ")
  {
    assert ([head] + more)[1..] == more;
  }

  lemma Regroup(p: string, head: string, tail: string)
    ensures p + (head + ", " + tail) == (p + head) + "," + (" " + tail)
  {
    assert ", " + tail == "," + (" " + tail);
  }

  /** The join of a longer list, regrouped around its first comma. */
  lemma JoinRegroup(p: string, head: string, more: seq<string>)
    requires |more| >= 1
    ensures p + JoinWith([head] + more, ", ") == (p + head) + "," + (" " + JoinWith(more, ", "))
  {
    JoinCons(head, more);
    Regroup(p, head, JoinWith(more, ", "));
  }

  lemma ParseJoinedStep(p: string, head: string, more: seq<string>)
    requires p == "" || p == " "
    requires Plain(head) && |more| >= 1
    requires TrimmedNonEmpty(SplitCommas(" " + JoinWith(more, ", "))) == more
    ensures TrimmedNonEmpty(SplitCommas(p + JoinWith([head] + more, ", "))) == [head] + more
  {
    TrimPadded(p, head);
    var tail := JoinWith(more, ", ");
    JoinRegroup(p, head, more);
    SplitCons(p + head, " " + tail);
    TrimmedCons(p + head, SplitCommas(" " + tail));
  }

  lemma ParseSingle(p: string, x: string)
    requires p == "" || p == " "
    requires Plain(x)
    ensures TrimmedNonEmpty(SplitCommas(p + JoinWith([x], ", "))) == [x]
  {
    TrimPadded(p, x);
    SplitNoComma(p + x);
    TrimmedCons(p + x, []);
  }

  lemma {:induction false} ParseJoined(p: string, xs: seq<string>)
    requires p == "" || p == " "
    requires |xs| >= 1 && forall i :: 0 <= i < |xs| ==> Plain(xs[i])
    ensures TrimmedNonEmpty(SplitCommas(p + JoinWith(xs, ", "))) == xs
    decreases |xs|
  {
    if |xs| == 1 {
      ParseSingle(p, xs[0]);
      assert xs == [xs[0]];
    } else {
      ParseJoined(" ", xs[1..]);
      ParseJoinedStep(p, xs[0], xs[1..]);
      assert [xs[0]] + xs[1..] == xs;
    }
  }

  /**
   * Joining with ", " (as `openEdit` fills the field) and parsing again (as
   * the submit does) gives back the list, for elements that are non-empty,
   * comma-free and without surrounding white space.
   */
  lemma JoinParseRoundTrip(xs: seq<string>)
    requires forall i :: 0 <= i < |xs| ==> Plain(xs[i])
    ensures ParseList(JoinWith(xs, ", ")) == xs
  {
    if |xs| == 0 {
      assert TrimmedNonEmpty([""]) == [];
    } else {
      ParseJoined("", xs);
      assert "" + JoinWith(xs, ", ") == JoinWith(xs, ", ");
    }
  }

  // ---------------------------------------------------------------------------
  // The product form and its FormData
  // ---------------------------------------------------------------------------

  /** `productForm`: every field as the text in its input. */
  datatype ProductForm = ProductForm(name: string, price: string, description: string, category: string,
                                     stock: string, sizes: string, colors: string, tags: string)

  const BlankForm: ProductForm := ProductForm("", "", "", "", "", "", "", "")

  /** A product as the admin list holds it; any field may be missing. */
  datatype AdminProduct = AdminProduct(id: string, name: Option<string>, price: Option<int>,
                                       description: Option<string>, category: Option<string>,
                                       stock: Option<int>, sizes: Option<seq<string>>,
                                       colors: Option<seq<string>>, tags: Option<seq<string>>)

  /** `n || ''` for a number: missing and 0 both give ''. */
  function NumberField(n: Option<int>): (r: string)
    ensures r == "" <==> n.None? || n.value == 0
    ensures n.Some? && n.value != 0 ==> r == IntToString(n.value)
  {
    if n.Some? && n.value != 0 then
      assert |IntToString(n.value)| >= 1;
      IntToString(n.value)
    else ""
  }

  /** `(xs || []).join(', ')`. */
  function ListField(xs: Option<seq<string>>): string
  {
    JoinWith(if xs.Some? then xs.value else [], ", ")
  }

  /** The form `openEdit` fills in from a product. */
  function EditForm(p: AdminProduct): (f: ProductForm)
    ensures f.name == OrEmpty(p.name) && f.description == OrEmpty(p.description)
    ensures f.category == OrEmpty(p.category)
    ensures f.price == NumberField(p.price) && f.stock == NumberField(p.stock)
    ensures f.sizes == ListField(p.sizes) && f.colors == ListField(p.colors) && f.tags == ListField(p.tags)
  {
    ProductForm(OrEmpty(p.name), NumberField(p.price), OrEmpty(p.description), OrEmpty(p.category),
                NumberField(p.stock), ListField(p.sizes), ListField(p.colors), ListField(p.tags))
  }

  /** `Object.entries(productForm)`, in declaration order. */
  function Entries(f: ProductForm): seq<(string, string)>
  {
    [("name", f.name), ("price", f.price), ("description", f.description), ("category", f.category),
     ("stock", f.stock), ("sizes", f.sizes), ("colors", f.colors), ("tags", f.tags)]
  }

  predicate IsListKey(k: string)
  {
    k == "sizes" || k == "colors" || k == "tags"
  }

  /** One `fd.append(k, item)` per item, in order. */
  function Tagged(k: string, items: seq<string>): (r: seq<(string, string)>)
    ensures |r| == |items|
    ensures forall i :: 0 <= i < |items| ==> r[i] == (k, items[i])
  {
    if |items| == 0 then [] else Tagged(k, items[..|items| - 1]) + [(k, items[|items| - 1])]
  }

  /** The appends one form entry makes: one per list item for a list field, otherwise one. */
  function Expand(e: (string, string)): seq<(string, string)>
  {
    if IsListKey(e.0) then Tagged(e.0, ParseList(e.1)) else [e]
  }

  /** The appends the entries make, in order. */
  function FormEntries(es: seq<(string, string)>): seq<(string, string)>
  {
    if |es| == 0 then [] else FormEntries(es[..|es| - 1]) + Expand(es[|es| - 1])
  }

  /** The FormData the submit sends: the form's appends, then the image when one was chosen. */
  function FormDataOf(f: ProductForm, imageFile: Option<string>): seq<(string, string)>
  {
    FormEntries(Entries(f)) + if imageFile.Some? then [("image", imageFile.value)] else []
  }

  /** The values sent under key k, in order (what the server reads as an array). */
  function ValuesOf(fd: seq<(string, string)>, k: string): seq<string>
  {
    if |fd| == 0 then [] else (if fd[0].0 == k then [fd[0].1] else []) + ValuesOf(fd[1..], k)
  }

  /** A value is read under k exactly when some entry pairs it with k. */
  lemma {:induction false} ValuesOfMembers(fd: seq<(string, string)>, k: string)
    ensures forall x :: x in ValuesOf(fd, k) <==> (k, x) in fd
  {
    if |fd| > 0 {
      ValuesOfMembers(fd[1..], k);
      assert fd == [fd[0]] + fd[1..];
    }
  }

  lemma FormEntriesSnoc(es: seq<(string, string)>, i: int)
    requires 0 <= i < |es|
    ensures FormEntries(es[..i + 1]) == FormEntries(es[..i]) + Expand(es[i])
  {
    assert es[..i + 1][..i] == es[..i];
  }

  lemma TaggedSnoc(k: string, items: seq<string>, j: int)
    requires 0 <= j < |items|
    ensures Tagged(k, items[..j + 1]) == Tagged(k, items[..j]) + [(k, items[j])]
  {
    assert items[..j + 1][..j] == items[..j];
  }

  /** `arr.forEach(item => fd.append(k, item))`. */
  method AppendItems(fd0: seq<(string, string)>, k: string, arr: seq<string>) returns (fd: seq<(string, string)>)
    ensures fd == fd0 + Tagged(k, arr)
  {
    fd := fd0;
    var j := 0;
    while j < |arr|
      invariant 0 <= j <= |arr|
      invariant fd == fd0 + Tagged(k, arr[..j])
    {
      TaggedSnoc(k, arr, j);
      fd := fd + [(k, arr[j])];
      j := j + 1;
    }
    assert arr[..j] == arr;
  }

  /** The `forEach` over the form's entries: each entry's appends, in order. */
  method AppendEntries(es: seq<(string, string)>) returns (fd: seq<(string, string)>)
    ensures fd == FormEntries(es)
  {
    fd := [];
    var i := 0;
    while i < |es|
      invariant 0 <= i <= |es|
      invariant fd == FormEntries(es[..i])
    {
      var (k, v) := es[i];
      FormEntriesSnoc(es, i);
      if IsListKey(k) {
        fd := AppendItems(fd, k, ParseList(v));
      } else {
        fd := fd + [(k, v)];
      }
      i := i + 1;
    }
    assert es[..i] == es;
  }

  /** The FormData `handleProductSubmit` builds. */
  method BuildFormData(f: ProductForm, imageFile: Option<string>) returns (fd: seq<(string, string)>)
    ensures fd == FormDataOf(f, imageFile)
  {
    fd := AppendEntries(Entries(f));
    if imageFile.Some? {
      fd := fd + [("image", imageFile.value)];
    }
  }

  lemma {:induction false} ValuesOfAppend(a: seq<(string, string)>, b: seq<(string, string)>, k: string)
    ensures ValuesOf(a + b, k) == ValuesOf(a, k) + ValuesOf(b, k)
  {
    if |a| == 0 {
      assert a + b == b;
    } else {
      assert (a + b)[1..] == a[1..] + b;
      ValuesOfAppend(a[1..], b, k);
    }
  }

  lemma ValuesOfSingle(e: (string, string), k: string)
    ensures ValuesOf([e], k) == if e.0 == k then [e.1] else []
  {
    assert [e][1..] == [];
  }

  lemma {:induction false} ValuesOfTagged(key: string, items: seq<string>, k: string)
    ensures ValuesOf(Tagged(key, items), k) == if key == k then items else []
  {
    if |items| > 0 {
      var init := items[..|items| - 1];
      var last := (key, items[|items| - 1]);
      assert Tagged(key, items) == Tagged(key, init) + [last];
      ValuesOfTagged(key, init, k);
      ValuesOfAppend(Tagged(key, init), [last], k);
      ValuesOfSingle(last, k);
      assert init + [items[|items| - 1]] == items;
    }
  }

  /** The values a single entry contributes under key k. */
  function EntryValues(e: (string, string), k: string): seq<string>
  {
    if e.0 != k then [] else if IsListKey(k) then ParseList(e.1) else [e.1]
  }

  lemma ValuesOfExpand(e: (string, string), k: string)
    ensures ValuesOf(Expand(e), k) == EntryValues(e, k)
  {
    if IsListKey(e.0) {
      ValuesOfTagged(e.0, ParseList(e.1), k);
    }
  }

  /** Keys other than k's entry contribute nothing under k. */
  lemma {:induction false} ValuesOfFormEntries(es: seq<(string, string)>, i: int, k: string)
    requires 0 <= i < |es| && es[i].0 == k
    requires forall j :: 0 <= j < |es| && j != i ==> es[j].0 != k
    ensures ValuesOf(FormEntries(es), k) == EntryValues(es[i], k)
    decreases |es|
  {
    var n := |es| - 1;
    var init := es[..n];
    ValuesOfAppend(FormEntries(init), Expand(es[n]), k);
    ValuesOfExpand(es[n], k);
    if i == n {
      NoValuesFor(init, k);
    } else {
      ValuesOfFormEntries(init, i, k);
    }
  }

  lemma {:induction false} NoValuesFor(es: seq<(string, string)>, k: string)
    requires forall j :: 0 <= j < |es| ==> es[j].0 != k
    ensures ValuesOf(FormEntries(es), k) == []
    decreases |es|
  {
    if |es| > 0 {
      var n := |es| - 1;
      var init := es[..n];
      assert FormEntries(es) == FormEntries(init) + Expand(es[n]);
      assert es[n].0 != k;
      assert forall j :: 0 <= j < |init| ==> init[j] == es[j];
      NoValuesFor(init, k);
      ValuesOfExpand(es[n], k);
      ValuesOfAppend(FormEntries(init), Expand(es[n]), k);
    }
  }

  /** The values under a list key come from that key's one entry; the image is sent under another key. */
  lemma ListKeySent(es: seq<(string, string)>, i: int, k: string, imageFile: Option<string>)
    requires 0 <= i < |es| && es[i].0 == k && IsListKey(k)
    requires forall j :: 0 <= j < |es| && j != i ==> es[j].0 != k
    ensures ValuesOf(FormEntries(es) + (if imageFile.Some? then [("image", imageFile.value)] else []), k)
            == ParseList(es[i].1)
  {
    var img := if imageFile.Some? then [("image", imageFile.value)] else [];
    ValuesOfFormEntries(es, i, k);
    ValuesOfAppend(FormEntries(es), img, k);
    assert ValuesOf(img, k) == [];
  }

  /** Where the list keys sit among the form's entries. */
  lemma ListKeysOfEntries(f: ProductForm)
    ensures Entries(f)[5] == ("sizes", f.sizes) && Entries(f)[6] == ("colors", f.colors)
    ensures Entries(f)[7] == ("tags", f.tags)
    ensures forall j :: 0 <= j < |Entries(f)| && j != 5 ==> Entries(f)[j].0 != "sizes"
    ensures forall j :: 0 <= j < |Entries(f)| && j != 6 ==> Entries(f)[j].0 != "colors"
    ensures forall j :: 0 <= j < |Entries(f)| && j != 7 ==> Entries(f)[j].0 != "tags"
  {
    var keys := ["name", "price", "description", "category", "stock", "sizes", "colors", "tags"];
    assert forall j :: 0 <= j < 8 ==> Entries(f)[j].0 == keys[j];
    assert "sizes"[1] == 'i' && "stock"[1] == 't' && "price"[0] == 'p';
    assert "colors"[0] != "tags"[0];
  }

  /** A list field is sent as its parsed items, one value each. */
  lemma ListFieldSent(f: ProductForm, imageFile: Option<string>)
    ensures ValuesOf(FormDataOf(f, imageFile), "sizes") == ParseList(f.sizes)
    ensures ValuesOf(FormDataOf(f, imageFile), "colors") == ParseList(f.colors)
    ensures ValuesOf(FormDataOf(f, imageFile), "tags") == ParseList(f.tags)
  {
    ListKeysOfEntries(f);
    ListKeySent(Entries(f), 5, "sizes", imageFile);
    ListKeySent(Entries(f), 6, "colors", imageFile);
    ListKeySent(Entries(f), 7, "tags", imageFile);
  }

  /**
   * A stored product as the dashboard receives it. The product schema has no
   * sizes, colors or tags, so those fields are always missing.
   */
  function AdminOf(id: string, p: ProductModel.Product): (a: AdminProduct)
    ensures a.sizes.None? && a.colors.None? && a.tags.None?
    ensures a.name == Some(p.name) && a.price == Some(p.price) && a.stock == Some(p.stock)
  {
    AdminProduct(id, Some(p.name), Some(p.price), p.description, Some(p.category), Some(p.stock),
                 None, None, None)
  }

  /** Editing a stored product and saving it sends no sizes, colors or tags. */
  lemma StoredProductSendsNoLists(id: string, p: ProductModel.Product, imageFile: Option<string>)
    ensures var fd := FormDataOf(EditForm(AdminOf(id, p)), imageFile);
            ValuesOf(fd, "sizes") == [] && ValuesOf(fd, "colors") == [] && ValuesOf(fd, "tags") == []
  {
    var f := EditForm(AdminOf(id, p));
    ListFieldSent(f, imageFile);
    assert f.sizes == "" && f.colors == "" && f.tags == "";
    assert TrimmedNonEmpty([""]) == [];
  }

  function ListOr(xs: Option<seq<string>>): seq<string>
  {
    if xs.Some? then xs.value else []
  }

  /**
   * Editing a product and saving it unchanged sends back its sizes, colours
   * and tags as they were, when every element is plain.
   */
  lemma EditSaveKeepsLists(p: AdminProduct, imageFile: Option<string>)
    requires forall i :: 0 <= i < |ListOr(p.sizes)| ==> Plain(ListOr(p.sizes)[i])
    requires forall i :: 0 <= i < |ListOr(p.colors)| ==> Plain(ListOr(p.colors)[i])
    requires forall i :: 0 <= i < |ListOr(p.tags)| ==> Plain(ListOr(p.tags)[i])
    ensures ValuesOf(FormDataOf(EditForm(p), imageFile), "sizes") == ListOr(p.sizes)
    ensures ValuesOf(FormDataOf(EditForm(p), imageFile), "colors") == ListOr(p.colors)
    ensures ValuesOf(FormDataOf(EditForm(p), imageFile), "tags") == ListOr(p.tags)
  {
    ListFieldSent(EditForm(p), imageFile);
    JoinParseRoundTrip(ListOr(p.sizes));
    JoinParseRoundTrip(ListOr(p.colors));
    JoinParseRoundTrip(ListOr(p.tags));
  }

  /**
   * The price and stock text `openEdit` puts in the form reads back as the
   * product's number when that number is non-zero; a missing or zero number
   * leaves the field blank.
   */
  lemma EditNumbersRoundTrip(p: AdminProduct)
    ensures p.price.Some? && p.price.value != 0 ==> ParseInt(EditForm(p).price) == p.price
    ensures p.stock.Some? && p.stock.value != 0 ==> ParseInt(EditForm(p).stock) == p.stock
    ensures p.price.None? || p.price.value == 0 ==> EditForm(p).price == ""
    ensures p.stock.None? || p.stock.value == 0 ==> EditForm(p).stock == ""
  {
    if p.price.Some? && p.price.value != 0 {
      ParseIntOfIntToString(p.price.value);
    }
    if p.stock.Some? && p.stock.value != 0 {
      ParseIntOfIntToString(p.stock.value);
    }
  }

  // ---------------------------------------------------------------------------
  // List updates after a successful call
  // ---------------------------------------------------------------------------

  /** `xs.filter(x => x._id !== id)`. */
  function WithoutId<T(!new)>(xs: seq<T>, id: string, idOf: T -> string): (r: seq<T>)
    ensures |r| <= |xs|
    ensures forall x :: x in r <==> x in xs && idOf(x) != id
  {
    if |xs| == 0 then []
    else if idOf(xs[0]) != id then [xs[0]] + WithoutId(xs[1..], id, idOf)
    else WithoutId(xs[1..], id, idOf)
  }

  /** Removal keeps the survivors in their order: it distributes over concatenation. */
  lemma {:induction false} WithoutIdAppend<T(!new)>(a: seq<T>, b: seq<T>, id: string, idOf: T -> string)
    ensures WithoutId(a + b, id, idOf) == WithoutId(a, id, idOf) + WithoutId(b, id, idOf)
  {
    if |a| == 0 {
      assert a + b == b;
    } else {
      assert (a + b)[1..] == a[1..] + b;
      WithoutIdAppend(a[1..], b, id, idOf);
    }
  }

  /** Removing an id no entry has changes nothing. */
  lemma {:induction false} WithoutAbsentId<T(!new)>(xs: seq<T>, id: string, idOf: T -> string)
    requires forall i :: 0 <= i < |xs| ==> idOf(xs[i]) != id
    ensures WithoutId(xs, id, idOf) == xs
  {
    if |xs| > 0 {
      WithoutAbsentId(xs[1..], id, idOf);
    }
  }

  /** `orders.map(o => o._id === orderId ? { ...o, status } : o)`. */
  function WithStatus(orders: seq<Order>, orderId: string, status: string): (r: seq<Order>)
    ensures |r| == |orders|
    ensures forall i :: 0 <= i < |orders| && orders[i].id != orderId ==> r[i] == orders[i]
    ensures forall i :: 0 <= i < |orders| && orders[i].id == orderId ==> r[i] == orders[i].(status := status)
  {
    if |orders| == 0 then []
    else [if orders[0].id == orderId then orders[0].(status := status) else orders[0]]
         + WithStatus(orders[1..], orderId, status)
  }

  /**
   * The admin's list (newest first) stays a copy of the store: after the
   * server's status update succeeds, editing the list by id gives the
   * updated store's listing.
   */
  lemma StatusEditMirrorsStore(s: seq<Order>, orderId: string, status: string)
    requires UniqueIds(s)
    requires FindOrder(s, orderId, None) >= 0
    ensures var i := FindOrder(s, orderId, None);
            WithStatus(Reverse(s), orderId, status) == Reverse(s[i := s[i].(status := status)])
  {
    var i := FindOrder(s, orderId, None);
    var after := s[i := s[i].(status := status)];
    var rs, ra := Reverse(s), Reverse(after);
    var l := WithStatus(rs, orderId, status);
    forall k | 0 <= k < |s| ensures l[k] == ra[k] {
      StatusEditAt(s, i, orderId, status, k);
    }
    assert |l| == |ra|;
  }

  /** One position of StatusEditMirrorsStore. */
  lemma StatusEditAt(s: seq<Order>, i: int, orderId: string, status: string, k: int)
    requires UniqueIds(s) && 0 <= i < |s| && s[i].id == orderId && 0 <= k < |s|
    ensures WithStatus(Reverse(s), orderId, status)[k] == Reverse(s[i := s[i].(status := status)])[k]
  {
    var j := |s| - 1 - k;
    assert Reverse(s)[k] == s[j];
    if j != i {
      assert s[j].id != orderId by {
        if j < i { assert s[j].id != s[i].id; } else { assert s[i].id != s[j].id; }
      }
    }
  }

  // ---------------------------------------------------------------------------
  // The dashboard's state
  // ---------------------------------------------------------------------------

  /** A user as the admin list holds it. */
  datatype AdminUser = AdminUser(id: string, name: Option<string>, email: Option<string>, role: Option<string>)

  datatype Stats = Stats(products: int, orders: int, users: int)

  /** The save `handleProductSubmit` sends: an update for the product being edited, otherwise a create. */
  datatype SaveCall = CreateCall(fd: seq<(string, string)>) | UpdateCall(id: string, fd: seq<(string, string)>)

  function ProductId(p: AdminProduct): string { p.id }
  function UserId(u: AdminUser): string { u.id }

  class Dashboard {
    var products: seq<AdminProduct>
    var orders: seq<Order>
    var users: seq<AdminUser>
    var stats: Stats
    var productForm: ProductForm
    var editing: Option<string>
    var imageFile: Option<string>
    var showProductForm: bool

    constructor ()
      ensures products == [] && orders == [] && users == [] && stats == Stats(0, 0, 0)
      ensures productForm == BlankForm && editing.None? && imageFile.None? && !showProductForm
    {
      products := [];
      orders := [];
      users := [];
      stats := Stats(0, 0, 0);
      productForm := BlankForm;
      editing := None;
      imageFile := None;
      showProductForm := false;
    }

    /** `fetchProducts`: the list and its count are set together. */
    method FetchProducts(list: seq<AdminProduct>)
      modifies this
      ensures products == list && stats == old(stats).(products := |products|)
      ensures orders == old(orders) && users == old(users)
      ensures productForm == old(productForm) && editing == old(editing)
      ensures imageFile == old(imageFile) && showProductForm == old(showProductForm)
    {
      products := list;
      stats := stats.(products := |list|);
    }

    /** `fetchOrders`. */
    method FetchOrders(list: seq<Order>)
      modifies this
      ensures orders == list && stats == old(stats).(orders := |orders|)
      ensures products == old(products) && users == old(users)
      ensures productForm == old(productForm) && editing == old(editing)
      ensures imageFile == old(imageFile) && showProductForm == old(showProductForm)
    {
      orders := list;
      stats := stats.(orders := |list|);
    }

    /** `fetchUsers`. */
    method FetchUsers(list: seq<AdminUser>)
      modifies this
      ensures users == list && stats == old(stats).(users := |users|)
      ensures products == old(products) && orders == old(orders)
      ensures productForm == old(productForm) && editing == old(editing)
      ensures imageFile == old(imageFile) && showProductForm == old(showProductForm)
    {
      users := list;
      stats := stats.(users := |list|);
    }

    /** `openEdit`: the form shows the product, with '' for whatever it lacks. */
    method OpenEdit(p: AdminProduct)
      modifies this
      ensures editing == Some(p.id) && productForm == EditForm(p)
      ensures imageFile.None? && showProductForm
      ensures products == old(products) && orders == old(orders) && users == old(users) && stats == old(stats)
    {
      editing := Some(p.id);
      productForm := EditForm(p);
      imageFile := None;
      showProductForm := true;
    }

    /** `openCreate`: every field blank, nothing being edited. */
    method OpenCreate()
      modifies this
      ensures editing.None? && productForm == BlankForm
      ensures imageFile.None? && showProductForm
      ensures products == old(products) && orders == old(orders) && users == old(users) && stats == old(stats)
    {
      editing := None;
      productForm := BlankForm;
      imageFile := None;
      showProductForm := true;
    }

    /**
     * `handleProductSubmit`: sends the form as FormData to update or create;
     * the form closes only when the call succeeded.
     */
    method SubmitProduct(reply: Result<AdminProduct, Option<string>>) returns (call: SaveCall, toast: Toast)
      modifies this
      ensures editing.Some? ==> call == UpdateCall(editing.value, FormDataOf(productForm, imageFile))
      ensures editing.None? ==> call == CreateCall(FormDataOf(productForm, imageFile))
      ensures reply.Ok? ==> !showProductForm
      ensures reply.Ok? ==> toast == ToastSuccess(if editing.Some? then "Product updated" else "Product created")
      ensures reply.Err? ==> showProductForm == old(showProductForm)
      ensures reply.Err? ==> toast == ToastError(ErrorText(reply.error, "Failed to save product"))
      ensures products == old(products) && productForm == old(productForm) && editing == old(editing)
      ensures imageFile == old(imageFile) && stats == old(stats)
      ensures orders == old(orders) && users == old(users)
    {
      var fd := BuildFormData(productForm, imageFile);
      if editing.Some? {
        call := UpdateCall(editing.value, fd);
      } else {
        call := CreateCall(fd);
      }
      if reply.Ok? {
        toast := ToastSuccess(if editing.Some? then "Product updated" else "Product created");
        showProductForm := false;
      } else {
        toast := ToastError(ErrorText(reply.error, "Failed to save product"));
      }
    }

    /**
     * `handleDeleteProduct`: nothing happens unless confirmed; the product
     * leaves the list only after the server deleted it. The count is not
     * updated.
     */
    method DeleteProduct(id: string, confirmed: bool, succeeded: bool) returns (toast: Option<Toast>)
      modifies this
      ensures !confirmed ==> toast.None? && products == old(products)
      ensures confirmed && succeeded ==>
                products == WithoutId(old(products), id, ProductId) && toast == Some(ToastSuccess("Product deleted"))
      ensures confirmed && !succeeded ==> products == old(products) && toast == Some(ToastError("Failed to delete"))
      ensures stats == old(stats) && orders == old(orders) && users == old(users)
      ensures productForm == old(productForm) && editing == old(editing)
      ensures imageFile == old(imageFile) && showProductForm == old(showProductForm)
    {
      if !confirmed {
        return None;
      }
      if succeeded {
        products := WithoutId(products, id, ProductId);
        toast := Some(ToastSuccess("Product deleted"));
      } else {
        toast := Some(ToastError("Failed to delete"));
      }
    }

    /** `handleDeleteUser`: as for products. */
    method DeleteUser(id: string, confirmed: bool, succeeded: bool) returns (toast: Option<Toast>)
      modifies this
      ensures !confirmed ==> toast.None? && users == old(users)
      ensures confirmed && succeeded ==>
                users == WithoutId(old(users), id, UserId) && toast == Some(ToastSuccess("User deleted"))
      ensures confirmed && !succeeded ==> users == old(users) && toast == Some(ToastError("Failed to delete"))
      ensures stats == old(stats) && orders == old(orders) && products == old(products)
      ensures productForm == old(productForm) && editing == old(editing)
      ensures imageFile == old(imageFile) && showProductForm == old(showProductForm)
    {
      if !confirmed {
        return None;
      }
      if succeeded {
        users := WithoutId(users, id, UserId);
        toast := Some(ToastSuccess("User deleted"));
      } else {
        toast := Some(ToastError("Failed to delete"));
      }
    }

    /** `handleUpdateOrderStatus`: the list changes only after the server accepted the status. */
    method UpdateOrderStatus(orderId: string, status: string, succeeded: bool) returns (toast: Toast)
      modifies this
      ensures succeeded ==> orders == WithStatus(old(orders), orderId, status) && toast == ToastSuccess("Status updated")
      ensures !succeeded ==> orders == old(orders) && toast == ToastError("Failed to update")
      ensures stats == old(stats) && products == old(products) && users == old(users)
      ensures productForm == old(productForm) && editing == old(editing)
      ensures imageFile == old(imageFile) && showProductForm == old(showProductForm)
    {
      if succeeded {
        orders := WithStatus(orders, orderId, status);
        toast := ToastSuccess("Status updated");
      } else {
        toast := ToastError("Failed to update");
      }
    }
  }

  /** Deleting a product after a fetch leaves the product count at the fetched length. */
  lemma CountLagsAfterDelete(list: seq<AdminProduct>, id: string, i: int)
    requires 0 <= i < |list| && list[i].id == id
    ensures |WithoutId(list, id, ProductId)| < |list|
  {
    var r := WithoutId(list, id, ProductId);
    WithoutIdAppend(list[..i], list[i..], id, ProductId);
    assert list[..i] + list[i..] == list;
    var tail := list[i..];
    assert WithoutId(tail, id, ProductId) == WithoutId(tail[1..], id, ProductId);
  }
}
