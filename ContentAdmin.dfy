/**
 * The FAQ content page's list reducers: saving a new item from the form,
 * loading an item into the form, updating it, deleting, and the
 * category-and-search filter. `Date.now()` and the confirmation dialog's
 * answer are inputs.
 */
module ContentAdmin {
  import opened Text
  import opened Common

  datatype Status = Active | Inactive | Draft

  /** `createdAt` and `updatedAt` are the `Date`s as milliseconds. */
  datatype ContentItem = ContentItem(
    id: string, title: string, content: string, category: string, tags: seq<string>, status: Status,
    createdAt: int, updatedAt: int)

  /** The editing form; the tags are one comma-separated text field. */
  datatype Form = Form(title: string, content: string, category: string, tags: string, status: Status)

  const EmptyForm := Form("", "", "", "", Draft)

  /** The component state the handlers change. */
  datatype Page = Page(items: seq<ContentItem>, form: Form, editing: Option<ContentItem>, adding: bool)

  // ---------------------------------------------------------------------------
  // Tags

  /** `s.split(',')`. */
  function SplitComma(s: string): (r: seq<string>)
    ensures |r| >= 1
  {
    if s == [] then [""]
    else if s[0] == ',' then [""] + SplitComma(s[1..])
    else var rest := SplitComma(s[1..]); [[s[0]] + rest[0]] + rest[1..]
  }

  /** `tags.split(',').map(tag => tag.trim())`. */
  function ParseTags(s: string): seq<string> {
    Trims(SplitComma(s))
  }

  /** `tags.join(', ')`, what the form shows for an item being edited. */
  function ShowTags(tags: seq<string>): string {
    Join(tags, ", ")
  }

  /** A tag that survives the round trip: no comma, and no whitespace at either end. */
  predicate CleanTag(t: string) {
    ',' !in t && (t != [] ==> !IsSpace(t[0]) && !IsSpace(t[|t| - 1]))
  }

  lemma {:induction false} SplitNoComma(s: string)
    requires ',' !in s
    ensures SplitComma(s) == [s]
  {
    if s != [] {
      assert forall c :: c in s[1..] ==> c in s;
      SplitNoComma(s[1..]);
      assert [s[0]] + s[1..] == s;
    }
  }

  lemma {:induction false} SplitAtComma(a: string, b: string)
    requires ',' !in a
    ensures SplitComma(a + [','] + b) == [a] + SplitComma(b)
  {
    var s := a + [','] + b;
    if a == [] {
      assert s == [','] + b && s[1..] == b;
    } else {
      assert s[0] == a[0] && s[1..] == a[1..] + [','] + b;
      assert forall c :: c in a[1..] ==> c in a;
      SplitAtComma(a[1..], b);
      assert [a[0]] + a[1..] == a;
    }
  }

  /** The pieces of a joined list: the first tag, then each further tag behind its space. */
  lemma {:induction false} SplitShown(tags: seq<string>)
    requires |tags| > 0 && forall k :: 0 <= k < |tags| ==> ',' !in tags[k]
    ensures SplitComma(ShowTags(tags)) == [tags[0]] + seq(|tags| - 1, i requires 0 <= i < |tags| - 1 => [' '] + tags[i + 1])
  {
    if |tags| == 1 {
      SplitNoComma(tags[0]);
    } else {
      var rest := tags[1..];
      assert ShowTags(tags) == tags[0] + ", " + ShowTags(rest);
      assert ShowTags(tags) == tags[0] + [','] + ([' '] + ShowTags(rest));
      SplitAtComma(tags[0], [' '] + ShowTags(rest));
      SplitShown(rest);
      var tail := SplitComma(ShowTags(rest));
      assert SplitComma([' '] + ShowTags(rest)) == [[' '] + tail[0]] + tail[1..];
    }
  }

  /** Showing clean tags in the form and parsing the field again gives the same tags. */
  lemma TagsRoundTrip(tags: seq<string>)
    requires |tags| > 0 && forall k :: 0 <= k < |tags| ==> CleanTag(tags[k])
    ensures ParseTags(ShowTags(tags)) == tags
  {
    SplitShown(tags);
    var parts := SplitComma(ShowTags(tags));
    TrimNoop(tags[0], IsSpace);
    forall k | 1 <= k < |tags| ensures Trim(parts[k]) == tags[k] {
      assert parts[k] == [' '] + tags[k];
      TrimAfterSpace(tags[k]);
    }
  }

  /** An empty tags field gives one empty tag. */
  lemma EmptyTagsField()
    ensures ParseTags("") == [""]
  {
    assert Trim("") == "";
  }

  // ---------------------------------------------------------------------------
  // Handlers

  /** `handleSave`: with a title, content and category, the new item is appended at the end and the form reset. */
  function HandleSave(p: Page, id: string, now: int): Page {
    var f := p.form;
    if f.title == "" || f.content == "" || f.category == "" then p
    else p.(items := p.items + [ContentItem(id, f.title, f.content, f.category, ParseTags(f.tags), f.status, now, now)],
            form := EmptyForm, adding := false)
  }

  /** `handleEdit(item)`: the item is loaded into the form. */
  function HandleEdit(p: Page, item: ContentItem): Page {
    p.(editing := Some(item), form := Form(item.title, item.content, item.category, ShowTags(item.tags), item.status),
       adding := true)
  }

  /** The edited item with the form's fields; `id` and `createdAt` are kept. */
  function Updated(e: ContentItem, f: Form, now: int): ContentItem {
    e.(title := f.title, content := f.content, category := f.category, tags := ParseTags(f.tags),
       status := f.status, updatedAt := now)
  }

  function ReplaceById(items: seq<ContentItem>, id: string, x: ContentItem): (r: seq<ContentItem>)
    ensures |r| == |items|
  {
    if items == [] then [] else [if items[0].id == id then x else items[0]] + ReplaceById(items[1..], id, x)
  }

  /** `handleUpdate`: without an item being edited nothing happens; otherwise that id is replaced. */
  function HandleUpdate(p: Page, now: int): Page {
    match p.editing
    case None => p
    case Some(e) => Page(ReplaceById(p.items, e.id, Updated(e, p.form, now)), EmptyForm, None, false)
  }

  function RemoveById(items: seq<ContentItem>, id: string): (r: seq<ContentItem>)
    ensures |r| <= |items|
  {
    if items == [] then [] else (if items[0].id != id then [items[0]] else []) + RemoveById(items[1..], id)
  }

  /** `handleDelete(id)` after the confirmation dialog answered `confirmed`. */
  function HandleDelete(p: Page, id: string, confirmed: bool): Page {
    if confirmed then p.(items := RemoveById(p.items, id)) else p
  }

  predicate Matches(item: ContentItem, selectedCategory: string, query: string) {
    (selectedCategory == "all" || item.category == selectedCategory)
    && (Contains(Lower(item.title), Lower(query)) || Contains(Lower(item.content), Lower(query)))
  }

  /** `filteredContent`. */
  function FilteredContent(items: seq<ContentItem>, selectedCategory: string, query: string): (r: seq<ContentItem>)
    ensures |r| <= |items|
  {
    if items == [] then []
    else (if Matches(items[0], selectedCategory, query) then [items[0]] else []) + FilteredContent(items[1..], selectedCategory, query)
  }

  // ---------------------------------------------------------------------------
  // Properties

  /**
   * A form missing a title, content or category changes nothing; otherwise
   * exactly one item, built from the form with both dates `now`, is appended
   * after the existing ones, the form is reset and the add panel closed, and
   * the item being edited is left alone.
   */
  lemma SaveAppendsOne(p: Page, id: string, now: int)
    ensures var q := HandleSave(p, id, now);
      if p.form.title == "" || p.form.content == "" || p.form.category == "" then q == p
      else |q.items| == |p.items| + 1 && q.items[..|p.items|] == p.items
           && q.items[|p.items|]
              == ContentItem(id, p.form.title, p.form.content, p.form.category, ParseTags(p.form.tags),
                             p.form.status, now, now)
           && q.form == EmptyForm && !q.adding && q.editing == p.editing
  {
  }

  lemma {:induction false} ReplacePointwise(items: seq<ContentItem>, id: string, x: ContentItem)
    ensures forall i :: 0 <= i < |items| ==> ReplaceById(items, id, x)[i] == if items[i].id == id then x else items[i]
  {
    if items != [] {
      ReplacePointwise(items[1..], id, x);
    }
  }

  /**
   * With an item being edited, only the items with its id are replaced, they
   * keep its `id` and `createdAt`, and no field is required: an empty form
   * still updates.
   */
  lemma UpdateReplacesOnlyEdited(p: Page, now: int)
    requires p.editing.Some?
    ensures var e := p.editing.value; var q := HandleUpdate(p, now);
      |q.items| == |p.items| && q.editing.None?
      && forall i :: 0 <= i < |p.items| ==>
           if p.items[i].id == e.id then q.items[i] == Updated(e, p.form, now) && q.items[i].id == e.id
                                     && q.items[i].createdAt == e.createdAt
           else q.items[i] == p.items[i]
  {
    ReplacePointwise(p.items, p.editing.value.id, Updated(p.editing.value, p.form, now));
  }

  /** Without an item being edited, updating changes nothing. */
  lemma UpdateWithoutEditingNoop(p: Page, now: int)
    requires p.editing.None?
    ensures HandleUpdate(p, now) == p
  {
  }

  /** Editing an item and saving the unchanged form only moves its `updatedAt`, when its tags are clean. */
  lemma EditThenUpdateKeepsItem(p: Page, item: ContentItem, now: int)
    requires |item.tags| > 0 && forall k :: 0 <= k < |item.tags| ==> CleanTag(item.tags[k])
    ensures Updated(item, HandleEdit(p, item).form, now) == item.(updatedAt := now)
  {
    TagsRoundTrip(item.tags);
  }

  /** Removing keeps exactly the items with another id, in order. */
  lemma {:induction false} RemoveMembers(items: seq<ContentItem>, id: string, x: ContentItem)
    ensures x in RemoveById(items, id) <==> x in items && x.id != id
  {
    if items != [] {
      RemoveMembers(items[1..], id, x);
      assert items == [items[0]] + items[1..];
    }
  }

  lemma {:induction false} RemoveAppend(a: seq<ContentItem>, b: seq<ContentItem>, id: string)
    ensures RemoveById(a + b, id) == RemoveById(a, id) + RemoveById(b, id)
  {
    if a == [] {
      assert a + b == b;
    } else {
      assert (a + b)[1..] == a[1..] + b;
      RemoveAppend(a[1..], b, id);
    }
  }

  /** An unconfirmed delete changes nothing. */
  lemma DeleteNeedsConfirmation(p: Page, id: string)
    ensures HandleDelete(p, id, false) == p
  {
  }

  /** The filter keeps exactly the items in the category (or all) whose title or content contains the query, ignoring case. */
  lemma {:induction false} FilterMembers(items: seq<ContentItem>, selectedCategory: string, query: string, x: ContentItem)
    ensures x in FilteredContent(items, selectedCategory, query) <==> x in items && Matches(x, selectedCategory, query)
  {
    if items != [] {
      FilterMembers(items[1..], selectedCategory, query, x);
      assert items == [items[0]] + items[1..];
    }
  }

  /** An empty search keeps every item of the selected category. */
  lemma EmptyQueryKeepsCategory(x: ContentItem, selectedCategory: string)
    requires selectedCategory == "all" || x.category == selectedCategory
    ensures Matches(x, selectedCategory, "")
  {
    assert OccursAt(Lower(x.title), Lower(""), 0);
  }
}
