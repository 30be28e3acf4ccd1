/** The category checkboxes of the volunteer flow (internal/bot/volunteer.go, repeated
    unchanged in internal/bot/dialog.go): a keyboard of checkboxes toggled in place by
    the text of a reply, and the selection list kept beside it. */
module Checkbox {
  import opened Wrappers
  import opened Strings
  import opened Keyboard

  const CheckboxEmoji := "✅"

  /** `category`: a category id (a UUID in the source) and its label. */
  datatype Category = Category(uid: int, text: string)

  /** `categoryCheckbox`: a category and whether it is ticked. */
  datatype CategoryCheckbox = CategoryCheckbox(category: Category, checked: bool)

  /** `service.CategoryTranslated`: a category as the handler loads it. */
  datatype CategoryTranslated = CategoryTranslated(id: int, name: string)

  /** `keyboardButton`: the label, ticked or not. */
  function KeyboardButton(b: CategoryCheckbox): (r: string)
    ensures |r| >= |b.category.text| && r[|r| - |b.category.text|..] == b.category.text
  {
    if b.checked then CheckboxEmoji + " " + b.category.text else b.category.text
  }

  /** A ticked box renders with the check mark: never its bare label. Either way the
      button contains the label, so pressing it matches that box. */
  lemma ButtonRendering(b: CategoryCheckbox)
    ensures KeyboardButton(b) == b.category.text <==> !b.checked
    ensures Contains(KeyboardButton(b), b.category.text)
  {
    if b.checked {
      ContainsSuffix(CheckboxEmoji + " ", b.category.text);
    } else {
      ContainsSelf(b.category.text);
    }
  }

  /** `invert` matches when the reply contains the box's label. */
  predicate Matches(b: CategoryCheckbox, text: string) {
    Contains(text, b.category.text)
  }

  /** `invert`: flip the box if the text contains its label, and report the new state;
      otherwise leave it and report (false, false). */
  method Invert(kb: array<CategoryCheckbox>, i: nat, text: string) returns (ok: bool, checked: bool)
    requires i < kb.Length
    modifies kb
    ensures ok <==> Matches(old(kb[i]), text)
    ensures ok ==> kb[..] == old(kb[..])[i := old(kb[i]).(checked := !old(kb[i]).checked)] && checked == kb[i].checked
    ensures !ok ==> kb[..] == old(kb[..]) && !checked
  {
    if Contains(text, kb[i].category.text) {
      kb[i] := kb[i].(checked := !kb[i].checked);
      return true, kb[i].checked;
    }
    return false, false;
  }

  /** The first box at or after `k` whose label the text contains. */
  function FirstMatchFrom(boxes: seq<CategoryCheckbox>, text: string, k: nat): (r: Option<nat>)
    requires k <= |boxes|
    ensures r.Some? ==> k <= r.value < |boxes| && Matches(boxes[r.value], text)
    ensures r.Some? ==> forall j :: k <= j < r.value ==> !Matches(boxes[j], text)
    ensures r.None? ==> forall j :: k <= j < |boxes| ==> !Matches(boxes[j], text)
    decreases |boxes| - k
  {
    if k == |boxes| then None
    else if Matches(boxes[k], text) then Some(k)
    else FirstMatchFrom(boxes, text, k + 1)
  }

  function FirstMatch(boxes: seq<CategoryCheckbox>, text: string): Option<nat> {
    FirstMatchFrom(boxes, text, 0)
  }

  /** The match of a text depends on the labels only, not on which boxes are ticked. */
  lemma FirstMatchIgnoresTicks(boxes: seq<CategoryCheckbox>, i: nat, text: string)
    requires i < |boxes|
    ensures FirstMatch(boxes[i := boxes[i].(checked := !boxes[i].checked)], text) == FirstMatch(boxes, text)
  {
    var flipped := boxes[i := boxes[i].(checked := !boxes[i].checked)];
    var k := |boxes|;
    while k > 0
      invariant 0 <= k <= |boxes|
      invariant FirstMatchFrom(flipped, text, k) == FirstMatchFrom(boxes, text, k)
    {
      k := k - 1;
      assert Matches(flipped[k], text) == Matches(boxes[k], text);
    }
  }

  /** `rmCategory` with distinct ids: every entry with this id dropped, the rest in order. */
  function Remove(cats: seq<Category>, uid: int): (r: seq<Category>) {
    if cats == [] then [] else (if cats[0].uid == uid then [] else [cats[0]]) + Remove(cats[1..], uid)
  }

  lemma {:induction false} RemoveAppend(a: seq<Category>, b: seq<Category>, uid: int)
    ensures Remove(a + b, uid) == Remove(a, uid) + Remove(b, uid)
  {
    if a == [] {
      assert a + b == b;
    } else {
      assert (a + b)[0] == a[0] && (a + b)[1..] == a[1..] + b;
      RemoveAppend(a[1..], b, uid);
    }
  }

  lemma {:induction false} RemoveAbsent(cats: seq<Category>, uid: int)
    requires forall i :: 0 <= i < |cats| ==> cats[i].uid != uid
    ensures Remove(cats, uid) == cats
  {
    if cats != [] {
      RemoveAbsent(cats[1..], uid);
    }
  }

  /** What stays after removal: exactly the entries with another id. */
  lemma {:induction false} RemoveKeeps(cats: seq<Category>, uid: int)
    ensures forall c :: c in Remove(cats, uid) <==> c in cats && c.uid != uid
  {
    if cats != [] {
      RemoveKeeps(cats[1..], uid);
      assert cats == [cats[0]] + cats[1..];
    }
  }

  /** With distinct ids, removing the id at `k` is the splice at `k`. */
  lemma {:induction false} RemoveAt(cats: seq<Category>, k: nat, uid: int)
    requires UidsDistinct(cats) && k < |cats| && cats[k].uid == uid
    ensures Remove(cats, uid) == cats[..k] + cats[k + 1..]
    decreases k
  {
    var tail := cats[1..];
    assert UidsDistinct(tail) by {
      forall p, q | 0 <= p < q < |tail| ensures tail[p].uid != tail[q].uid {
        assert tail[p] == cats[p + 1] && tail[q] == cats[q + 1];
      }
    }
    if k == 0 {
      forall j | 0 <= j < |tail| ensures tail[j].uid != uid {
        assert tail[j] == cats[j + 1];
      }
      RemoveAbsent(tail, uid);
    } else {
      assert cats[0].uid != uid;
      assert tail[k - 1] == cats[k];
      RemoveAt(tail, k - 1, uid);
      assert Remove(cats, uid) == [cats[0]] + (tail[..k - 1] + tail[k..]);
      assert cats[..k] == [cats[0]] + tail[..k - 1];
      assert cats[k + 1..] == tail[k..];
    }
  }

  predicate UidsDistinct(cats: seq<Category>) {
    forall i, j :: 0 <= i < j < |cats| ==> cats[i].uid != cats[j].uid
  }

  predicate BoxUidsDistinct(boxes: seq<CategoryCheckbox>) {
    forall i, j :: 0 <= i < j < |boxes| ==> boxes[i].category.uid != boxes[j].category.uid
  }

  /** The selection invariant: every id appears once on the keyboard and once at most in
      the selection, and the selection holds exactly the categories of the ticked boxes. */
  predicate SelectionInv(boxes: seq<CategoryCheckbox>, cats: seq<Category>) {
    BoxUidsDistinct(boxes) && UidsDistinct(cats) &&
    (forall i :: 0 <= i < |boxes| && boxes[i].checked ==> boxes[i].category in cats) &&
    (forall k :: 0 <= k < |cats| ==> exists i :: 0 <= i < |boxes| && boxes[i].checked && boxes[i].category == cats[k])
  }

  /** The result of `invertCategoryButton`: the id it reports, whether a box matched,
      and the keyboard and selection afterwards. */
  datatype ToggleResult = ToggleResult(uid: int, ok: bool, boxes: seq<CategoryCheckbox>, cats: seq<Category>)

  /** `invertCategoryButton`: toggle the first matching box; a tick appends its category
      to the selection, an untick removes it; no match changes nothing. */
  function Toggle(boxes: seq<CategoryCheckbox>, cats: seq<Category>, text: string): (r: ToggleResult)
    ensures r.ok <==> exists i :: 0 <= i < |boxes| && Matches(boxes[i], text)
    ensures !r.ok ==> r == ToggleResult(0, false, boxes, cats)
    ensures r.ok ==> FirstMatch(boxes, text).Some? && r.uid == boxes[FirstMatch(boxes, text).value].category.uid
    ensures |r.boxes| == |boxes|
  {
    match FirstMatch(boxes, text)
    case None => ToggleResult(0, false, boxes, cats)
    case Some(i) =>
      var b := boxes[i].(checked := !boxes[i].checked);
      ToggleResult(b.category.uid, true, boxes[i := b],
                   if b.checked then cats + [b.category] else Remove(cats, b.category.uid))
  }

  /** A box is toggled only when no earlier box's label occurs in the text: the first
      match wins, in keyboard order. */
  lemma ToggleFirstMatch(boxes: seq<CategoryCheckbox>, cats: seq<Category>, text: string, i: nat)
    requires i < |boxes| && Matches(boxes[i], text)
    requires forall j :: 0 <= j < i ==> !Matches(boxes[j], text)
    ensures Toggle(boxes, cats, text).boxes == boxes[i := boxes[i].(checked := !boxes[i].checked)]
    ensures forall j :: 0 <= j < |boxes| && j != i ==> Toggle(boxes, cats, text).boxes[j] == boxes[j]
  {
    var r := FirstMatch(boxes, text);
    assert r.Some?;
    assert r.value == i;
  }

  /** Pressing a box's own button toggles an earlier box instead whenever that earlier
      label occurs inside the pressed one (a label that is a substring of a later one). */
  lemma ShadowedButton(boxes: seq<CategoryCheckbox>, cats: seq<Category>, i: nat, j: nat)
    requires j < i < |boxes| && Contains(KeyboardButton(boxes[i]), boxes[j].category.text)
    ensures Toggle(boxes, cats, KeyboardButton(boxes[i])).ok
    ensures FirstMatch(boxes, KeyboardButton(boxes[i])).value <= j
  {
  }

  /** Ticking box `i`: its category joins the end of the selection. */
  lemma {:induction false} TickKeepsInv(boxes: seq<CategoryCheckbox>, cats: seq<Category>, i: nat)
    requires SelectionInv(boxes, cats) && i < |boxes| && !boxes[i].checked
    ensures SelectionInv(boxes[i := boxes[i].(checked := true)], cats + [boxes[i].category])
  {
    var nb := boxes[i := boxes[i].(checked := true)];
    var nc := cats + [boxes[i].category];
    assert BoxUidsDistinct(nb) by {
      forall p, q | 0 <= p < q < |nb| ensures nb[p].category.uid != nb[q].category.uid {
        assert nb[p].category == boxes[p].category && nb[q].category == boxes[q].category;
      }
    }
    assert UidsDistinct(nc) by {
      forall p, q | 0 <= p < q < |nc| ensures nc[p].uid != nc[q].uid {
        if q == |cats| {
          var w :| 0 <= w < |boxes| && boxes[w].checked && boxes[w].category == cats[p];
          assert w != i;
        } else {
          assert nc[p] == cats[p] && nc[q] == cats[q];
        }
      }
    }
    forall w | 0 <= w < |nb| && nb[w].checked ensures nb[w].category in nc {
      if w != i {
        assert nb[w] == boxes[w];
      } else {
        assert nc[|cats|] == nb[w].category;
      }
    }
    assert BoxUidsDistinct(nb) && UidsDistinct(nc);
    assert forall w :: 0 <= w < |nb| && nb[w].checked ==> nb[w].category in nc;
    forall k | 0 <= k < |nc|
      ensures exists w :: 0 <= w < |nb| && nb[w].checked && nb[w].category == nc[k]
    {
      if k == |cats| {
        assert nb[i].checked && nb[i].category == nc[k];
      } else {
        var w :| 0 <= w < |boxes| && boxes[w].checked && boxes[w].category == cats[k];
        assert w != i;
        assert nb[w].checked && nb[w].category == nc[k];
      }
    }
  }

  /** Splicing one entry out of a list with distinct ids keeps the ids distinct and
      keeps every other entry. */
  lemma {:induction false} SpliceDistinct(cats: seq<Category>, k: nat)
    requires UidsDistinct(cats) && k < |cats|
    ensures UidsDistinct(cats[..k] + cats[k + 1..])
    ensures forall c :: c in cats[..k] + cats[k + 1..] <==> c in cats && c.uid != cats[k].uid
  {
    var nc := cats[..k] + cats[k + 1..];
    forall p, q | 0 <= p < q < |nc| ensures nc[p].uid != nc[q].uid {
      if q < k {
        assert nc[p] == cats[p] && nc[q] == cats[q];
      } else if p < k {
        assert nc[p] == cats[p] && nc[q] == cats[q + 1];
      } else {
        assert nc[p] == cats[p + 1] && nc[q] == cats[q + 1];
      }
    }
    forall c ensures c in nc <==> c in cats && c.uid != cats[k].uid {
      if c in nc {
        var p :| 0 <= p < |nc| && nc[p] == c;
        if p < k { assert nc[p] == cats[p]; } else { assert nc[p] == cats[p + 1]; }
      }
      if c in cats && c.uid != cats[k].uid {
        var p :| 0 <= p < |cats| && cats[p] == c;
        assert p != k;
        if p < k { assert nc[p] == c; } else { assert nc[p - 1] == c; }
      }
    }
  }

  /** Unticking box `i`: its category leaves the selection, the others stay in order. */
  lemma UntickKeepsInv(boxes: seq<CategoryCheckbox>, cats: seq<Category>, i: nat)
    requires SelectionInv(boxes, cats) && i < |boxes| && boxes[i].checked
    ensures SelectionInv(boxes[i := boxes[i].(checked := false)], Remove(cats, boxes[i].category.uid))
  {
    var ki :| 0 <= ki < |cats| && cats[ki] == boxes[i].category;
    RemoveAt(cats, ki, boxes[i].category.uid);
    UntickSplice(boxes, cats, i, ki, cats[..ki] + cats[ki + 1..]);
  }

  /** Unticking box `i`, whose category is `cats[ki]`, and splicing it out of the selection. */
  lemma UntickSplice(boxes: seq<CategoryCheckbox>, cats: seq<Category>, i: nat, ki: nat, nc: seq<Category>)
    requires SelectionInv(boxes, cats) && i < |boxes| && boxes[i].checked
    requires ki < |cats| && cats[ki] == boxes[i].category && nc == cats[..ki] + cats[ki + 1..]
    ensures SelectionInv(boxes[i := boxes[i].(checked := false)], nc)
  {
    var nb := boxes[i := boxes[i].(checked := false)];
    SpliceDistinct(cats, ki);
    assert BoxUidsDistinct(nb) by {
      forall p, q | 0 <= p < q < |nb| ensures nb[p].category.uid != nb[q].category.uid {
        assert nb[p].category == boxes[p].category && nb[q].category == boxes[q].category;
      }
    }
    forall w | 0 <= w < |nb| && nb[w].checked ensures nb[w].category in nc {
      assert w != i && nb[w] == boxes[w];
    }
    forall k | 0 <= k < |nc|
      ensures exists w :: 0 <= w < |nb| && nb[w].checked && nb[w].category == nc[k]
    {
      assert nc[k] in nc;
      var k0 :| 0 <= k0 < |cats| && cats[k0] == nc[k];
      var w :| 0 <= w < |boxes| && boxes[w].checked && boxes[w].category == cats[k0];
      assert w != i;
      assert nb[w].checked && nb[w].category == nc[k];
    }
  }

  /** Toggling preserves the selection invariant. */
  lemma ToggleKeepsInv(boxes: seq<CategoryCheckbox>, cats: seq<Category>, text: string)
    requires SelectionInv(boxes, cats)
    ensures SelectionInv(Toggle(boxes, cats, text).boxes, Toggle(boxes, cats, text).cats)
  {
    var m := FirstMatch(boxes, text);
    if m.Some? {
      if boxes[m.value].checked {
        UntickKeepsInv(boxes, cats, m.value);
      } else {
        TickKeepsInv(boxes, cats, m.value);
      }
    }
  }

  /** Ticking a box and then unticking it with the same text restores both the keyboard
      and the selection list exactly. */
  lemma DoubleToggleFromUnchecked(boxes: seq<CategoryCheckbox>, cats: seq<Category>, text: string)
    requires SelectionInv(boxes, cats)
    requires FirstMatch(boxes, text).Some? && !boxes[FirstMatch(boxes, text).value].checked
    ensures var r1 := Toggle(boxes, cats, text);
            Toggle(r1.boxes, r1.cats, text) == ToggleResult(r1.uid, true, boxes, cats)
  {
    var i := FirstMatch(boxes, text).value;
    var r1 := Toggle(boxes, cats, text);
    FirstMatchIgnoresTicks(boxes, i, text);
    var c := boxes[i].category;
    forall k | 0 <= k < |cats| ensures cats[k].uid != c.uid {
      assert exists w :: 0 <= w < |boxes| && boxes[w].checked && boxes[w].category == cats[k];
      var w :| 0 <= w < |boxes| && boxes[w].checked && boxes[w].category == cats[k];
      assert w != i;
    }
    RemoveAppend(cats, [c], c.uid);
    RemoveAbsent(cats, c.uid);
    assert Remove([c], c.uid) == [];
    assert r1.boxes[i := boxes[i]] == boxes;
  }

  /** Toggle at its first match `i`, unfolded. */
  lemma ToggleAt(boxes: seq<CategoryCheckbox>, cats: seq<Category>, text: string, i: nat)
    requires i < |boxes| && FirstMatch(boxes, text) == Some(i)
    ensures var b := boxes[i].(checked := !boxes[i].checked);
            Toggle(boxes, cats, text)
            == ToggleResult(b.category.uid, true, boxes[i := b],
                            if b.checked then cats + [b.category] else Remove(cats, b.category.uid))
  {
  }

  /** Moving one entry to the end keeps the multiset of entries. */
  lemma MoveToEnd(cats: seq<Category>, k: nat)
    requires k < |cats|
    ensures multiset(cats[..k] + cats[k + 1..] + [cats[k]]) == multiset(cats)
  {
    calc {
      multiset(cats[..k] + cats[k + 1..] + [cats[k]]);
      multiset(cats[..k]) + multiset(cats[k + 1..]) + multiset([cats[k]]);
      multiset(cats[..k] + [cats[k]] + cats[k + 1..]);
      { assert cats[..k] + [cats[k]] + cats[k + 1..] == cats; }
      multiset(cats);
    }
  }

  /** Unticking a ticked box and ticking it again restores the keyboard and the set of
      selected categories; the category moves to the end of the selection. */
  lemma DoubleToggleFromChecked(boxes: seq<CategoryCheckbox>, cats: seq<Category>, text: string)
    requires SelectionInv(boxes, cats)
    requires FirstMatch(boxes, text).Some? && boxes[FirstMatch(boxes, text).value].checked
    ensures var r1 := Toggle(boxes, cats, text);
            var c := boxes[FirstMatch(boxes, text).value].category;
            var r2 := Toggle(r1.boxes, r1.cats, text);
            r2.boxes == boxes && r2.cats == Remove(cats, c.uid) + [c] && multiset(r2.cats) == multiset(cats)
  {
    var i := FirstMatch(boxes, text).value;
    var c := boxes[i].category;
    var b1 := boxes[i := boxes[i].(checked := false)];
    ToggleAt(boxes, cats, text, i);
    FirstMatchIgnoresTicks(boxes, i, text);
    ToggleAt(b1, Remove(cats, c.uid), text, i);
    assert b1[i := b1[i].(checked := true)] == boxes;
    var k :| 0 <= k < |cats| && cats[k] == c;
    RemoveAt(cats, k, c.uid);
    MoveToEnd(cats, k);
  }

  /** `new(volunteer)` followed by the keyboard loop: one unticked box per category. */
  function Unchecked(categories: seq<CategoryTranslated>): (boxes: seq<CategoryCheckbox>)
    ensures |boxes| == |categories|
  {
    seq(|categories|, i requires 0 <= i < |categories| =>
      CategoryCheckbox(Category(categories[i].id, categories[i].name), false))
  }

  predicate IdsDistinct(categories: seq<CategoryTranslated>) {
    forall i, j :: 0 <= i < j < |categories| ==> categories[i].id != categories[j].id
  }

  /** A fresh keyboard and the empty selection satisfy the invariant. */
  lemma InitialSelection(categories: seq<CategoryTranslated>)
    requires IdsDistinct(categories)
    ensures SelectionInv(Unchecked(categories), [])
  {
  }

  /** The keyboard loop of the role reply: one unticked box per category, in order. */
  method NewCheckboxKeyboard(categories: seq<CategoryTranslated>) returns (kb: array<CategoryCheckbox>)
    ensures fresh(kb) && kb[..] == Unchecked(categories)
  {
    kb := new CategoryCheckbox[|categories|](_ => CategoryCheckbox(Category(0, ""), false));
    var i := 0;
    while i < |categories|
      invariant 0 <= i <= |categories|
      invariant forall j :: 0 <= j < i ==> kb[j] == Unchecked(categories)[j]
    {
      kb[i] := CategoryCheckbox(Category(categories[i].id, categories[i].name), false);
      i := i + 1;
    }
  }

  /** After the one splice at `k`, no later position of the shifted array holds the id. */
  lemma SpliceSkipsMatch(categories: seq<Category>, k: nat, i: nat, uid: int)
    requires UidsDistinct(categories) && k < i < |categories| && categories[k].uid == uid
    ensures (categories[..k] + categories[k + 1..] + [categories[|categories| - 1]])[i].uid != uid
  {
    var n := |categories|;
    if i < n - 1 {
      assert (categories[..k] + categories[k + 1..] + [categories[n - 1]])[i] == categories[i + 1];
    } else {
      assert (categories[..k] + categories[k + 1..] + [categories[n - 1]])[i] == categories[n - 1];
    }
  }

  /** `rmCategory` as Go runs it: `range` walks the original length and reads the shared
      backing array, which each splice shifts left in place (leaving a stale copy of the
      last element behind). A splice past the current length is Go's slice-bounds panic.
      With distinct ids there is at most one splice and the result is the filter. */
  method RmCategory(categories: seq<Category>, uid: int) returns (cats: seq<Category>, panicked: bool)
    ensures UidsDistinct(categories) ==> !panicked && cats == Remove(categories, uid)
  {
    var n := |categories|;
    var backing := categories;
    var len := n;
    var i := 0;
    panicked := false;
    while i < n
      invariant 0 <= i <= n && |backing| == n && 0 <= len <= n
      invariant UidsDistinct(categories) ==>
        !panicked &&
        ((len == n && backing == categories && forall j :: 0 <= j < i ==> categories[j].uid != uid) ||
        (exists k :: 0 <= k < i && categories[k].uid == uid && len == n - 1 &&
                     backing == categories[..k] + categories[k + 1..] + [categories[n - 1]]))
    {
      var x := backing[i];
      if UidsDistinct(categories) && len < n {
        ghost var k :| 0 <= k < i && categories[k].uid == uid && len == n - 1 &&
                       backing == categories[..k] + categories[k + 1..] + [categories[n - 1]];
        SpliceSkipsMatch(categories, k, i, uid);
      }
      if x.uid == uid {
        if i + 1 > len {
          return categories, true;
        }
        backing := backing[..i] + backing[i + 1..len] + backing[len - 1..];
        len := len - 1;
      }
      i := i + 1;
    }
    cats := backing[..len];
    if UidsDistinct(categories) {
      if len == n {
        RemoveAbsent(categories, uid);
      } else {
        var k :| 0 <= k < n && categories[k].uid == uid &&
                 backing == categories[..k] + categories[k + 1..] + [categories[n - 1]];
        RemoveAt(categories, k, uid);
        assert cats == (categories[..k] + categories[k + 1..] + [categories[n - 1]])[..n - 1];
      }
    }
  }

  /** `invertCategoryButton` over the keyboard array and the selection list. */
  method InvertCategoryButton(kb: array<CategoryCheckbox>, categories: seq<Category>, msg: string)
    returns (uid: int, ok: bool, cats: seq<Category>, panicked: bool)
    modifies kb
    ensures var r := Toggle(old(kb[..]), categories, msg);
            kb[..] == r.boxes && uid == r.uid && ok == r.ok &&
            (UidsDistinct(categories) ==> !panicked && cats == r.cats)
    ensures !ok ==> cats == categories && !panicked
  {
    ghost var boxes := kb[..];
    var i := 0;
    while i < kb.Length
      invariant 0 <= i <= kb.Length
      invariant kb[..] == boxes
      invariant FirstMatch(boxes, msg) == FirstMatchFrom(boxes, msg, i)
    {
      var checked;
      ok, checked := Invert(kb, i, msg);
      if ok {
        var c := kb[i].category;
        if checked {
          cats, panicked := categories + [c], false;
        } else {
          cats, panicked := RmCategory(categories, c.uid);
        }
        return c.uid, true, cats, panicked;
      }
      i := i + 1;
    }
    return 0, false, categories, false;
  }

  /** The buttons of the keyboard, in order. */
  function Buttons(boxes: seq<CategoryCheckbox>): (labels: seq<string>)
    ensures |labels| == |boxes|
  {
    seq(|boxes|, i requires 0 <= i < |boxes| => KeyboardButton(boxes[i]))
  }

  /** `categoryKeyboardLayout`: boxes in pairs, then the "next" row when its label is set. */
  function Layout(boxes: seq<CategoryCheckbox>, nextbtn: string): seq<seq<string>> {
    Pairs(Buttons(boxes)) + (if nextbtn != "" then [[nextbtn]] else [])
  }

  /** Every box appears once, in order, in rows of one or two, and a single-button row
      holding the "next" label is added exactly when that label is non-empty. */
  lemma LayoutShape(boxes: seq<CategoryCheckbox>, nextbtn: string)
    ensures Flatten(Layout(boxes, nextbtn)) == Buttons(boxes) + (if nextbtn != "" then [nextbtn] else [])
    ensures |Layout(boxes, nextbtn)| == (|boxes| + 1) / 2 + (if nextbtn != "" then 1 else 0)
    ensures forall r :: 0 <= r < (|boxes| + 1) / 2 ==> 1 <= |Layout(boxes, nextbtn)[r]| <= 2
    ensures nextbtn != "" ==> Layout(boxes, nextbtn)[|Layout(boxes, nextbtn)| - 1] == [nextbtn]
  {
    PairsFlatten(Buttons(boxes));
    PairsRows(Buttons(boxes));
    FlattenAppend(Pairs(Buttons(boxes)), if nextbtn != "" then [[nextbtn]] else []);
    assert Flatten([[nextbtn]]) == [nextbtn] + Flatten([]);
  }

  method CategoryKeyboardLayout(kb: array<CategoryCheckbox>, nextbtn: string) returns (layout: seq<seq<string>>)
    ensures layout == Layout(kb[..], nextbtn)
  {
    ghost var labels := Buttons(kb[..]);
    layout := [];
    var i := 0;
    while i < kb.Length
      invariant 0 <= i <= kb.Length
      invariant layout == Pairs(labels[..i])
    {
      PairsStep(labels, i);
      if |layout| == 0 || |layout[|layout| - 1]| == 2 {
        layout := layout + [[KeyboardButton(kb[i])]];
      } else {
        layout := layout[..|layout| - 1] + [layout[|layout| - 1] + [KeyboardButton(kb[i])]];
      }
      i := i + 1;
    }
    assert labels[..kb.Length] == labels;
    if nextbtn != "" {
      layout := layout + [[nextbtn]];
    }
  }
}
