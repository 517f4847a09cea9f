/**
 * The snippet manager: a list of code snippets with a create/edit form,
 * delete and star toggling, and a view of the list filtered by language and
 * search text and sorted starred-first, then by title.
 */
module Snippets {
  import opened Wrappers
  import opened Seqs
  import opened Text
  import opened Numerals

  datatype Snippet = Snippet(
    id: string,
    title: string,
    code: string,
    language: string,
    tags: seq<string>,
    starred: bool)

  /** The language the form starts with and returns to. */
  const DefaultLanguage: string := "javascript"

  // ---------------------------------------------------------------- tags

  /** What the tags field yields: non-empty, no whitespace at either end, no comma. */
  predicate IsTag(t: string) {
    t != [] && IsTrimmed(t) && ',' !in t
  }

  predicate NonEmpty(t: string) {
    |t| > 0
  }

  /** Trims each piece and drops the ones left empty, keeping the order. */
  function KeepTags(pieces: seq<string>): seq<string> {
    if pieces == [] then []
    else (if Trim(pieces[0]) == "" then [] else [Trim(pieces[0])]) + KeepTags(pieces[1..])
  }

  /** KeepTags is the trim-then-drop-empty pipeline: a map followed by a filter. */
  lemma {:induction false} KeepTagsIsFilterMap(pieces: seq<string>)
    ensures KeepTags(pieces) == Filter(Map(pieces, Trim), NonEmpty)
  {
    if pieces != [] {
      KeepTagsIsFilterMap(pieces[1..]);
      assert Map(pieces, Trim) == [Trim(pieces[0])] + Map(pieces[1..], Trim);
      FilterConcat([Trim(pieces[0])], Map(pieces[1..], Trim), NonEmpty);
    }
  }

  /** Pieces without a comma give well-formed tags. */
  lemma {:induction false} KeepTagsWellFormed(pieces: seq<string>)
    requires forall p :: p in pieces ==> ',' !in p
    ensures forall t :: t in KeepTags(pieces) ==> IsTag(t)
  {
    if pieces != [] {
      assert pieces[0] in pieces;
      KeepTagsWellFormed(pieces[1..]);
    }
  }

  lemma {:induction false} KeepTagsConcat(a: seq<string>, b: seq<string>)
    ensures KeepTags(a + b) == KeepTags(a) + KeepTags(b)
  {
    if a == [] {
      assert a + b == b;
    } else {
      assert (a + b)[1..] == a[1..] + b;
      KeepTagsConcat(a[1..], b);
    }
  }

  /**
   * The tags of the comma-separated field: split at ',', trim each piece,
   * drop the empty ones.
   */
  function ParseTags(field: string): seq<string> {
    KeepTags(Split(field, ','))
  }

  /** Every tag the field yields is well formed. */
  lemma {:induction false} ParseTagsWellFormed(field: string)
    ensures forall t :: t in ParseTags(field) ==> IsTag(t)
  {
    KeepTagsWellFormed(Split(field, ','));
  }

  /**
   * Tags keep their order: the tags of two fields joined by a comma are the
   * tags of the first followed by those of the second.
   */
  lemma {:induction false} ParseTagsConcat(a: string, b: string)
    ensures ParseTags(a + "," + b) == ParseTags(a) + ParseTags(b)
  {
    SplitConcat(a, b, ',');
    KeepTagsConcat(Split(a, ','), Split(b, ','));
  }

  /** A field without a comma is one tag, its trimmed text, unless that is empty. */
  lemma {:induction false} ParseTagsSingle(piece: string)
    requires ',' !in piece
    ensures ParseTags(piece) == if Trim(piece) == "" then [] else [Trim(piece)]
  {
    SplitNone(piece, ',');
    assert [piece][1..] == [];
    assert KeepTags([piece]) == (if Trim(piece) == "" then [] else [Trim(piece)]) + KeepTags([]);
  }

  lemma {:induction false} Regroup(ws: string, t: string, rest: string)
    ensures ws + (t + ", " + rest) == (ws + t) + "," + (" " + rest)
  {
    assert ", " == "," + " ";
  }

  /**
   * Editing shows the tags joined by ", "; saving parses them again. Well
   * formed tags survive the round trip unchanged, in order, even with
   * whitespace in front.
   */
  lemma {:induction false} ParseTagsJoin(ws: string, tags: seq<string>)
    requires AllWhitespace(ws)
    requires forall t :: t in tags ==> IsTag(t)
    ensures ParseTags(ws + Join(tags, ", ")) == tags
    decreases |tags|
  {
    assert ',' !in ws by {
      forall i | 0 <= i < |ws| ensures ws[i] != ',' {
        assert IsWhitespace(ws[i]);
      }
    }
    if tags == [] {
      assert ws + Join(tags, ", ") == ws;
      ParseTagsSingle(ws);
      TrimBlank(ws);
    } else {
      var t, more := tags[0], tags[1..];
      assert tags == [t] + more;
      assert t in tags;
      assert ',' !in ws + t by {
        forall i | 0 <= i < |ws + t| ensures (ws + t)[i] != ',' {
          if i >= |ws| {
            assert (ws + t)[i] == t[i - |ws|];
          }
        }
      }
      TrimPadded(ws, t);
      ParseTagsSingle(ws + t);
      if more != [] {
        var rest := Join(more, ", ");
        assert Join(tags, ", ") == t + ", " + rest;
        Regroup(ws, t, rest);
        ParseTagsConcat(ws + t, " " + rest);
        ParseTagsJoin(" ", more);
      }
    }
  }

  // ---------------------------------------------------------- list edits

  /** The callback of the update's map: new form values on the snippet with that id. */
  function Revise(id: string, title: string, code: string, language: string, tags: seq<string>): Snippet -> Snippet {
    (s: Snippet) => if s.id == id then s.(title := title, code := code, language := language, tags := tags) else s
  }

  /**
   * The list an update builds: same length and order; each snippet with
   * that id takes the form's title, code, language and tags and keeps its
   * id and star; every other snippet is unchanged.
   */
  function UpdateSnippets(snippets: seq<Snippet>, id: string, title: string, code: string, language: string, tags: seq<string>): (r: seq<Snippet>)
    ensures |r| == |snippets|
    ensures forall i :: 0 <= i < |r| ==> r[i].id == snippets[i].id && r[i].starred == snippets[i].starred
    ensures forall i :: 0 <= i < |r| && snippets[i].id == id ==>
      r[i].title == title && r[i].code == code && r[i].language == language && r[i].tags == tags
    ensures forall i :: 0 <= i < |r| && snippets[i].id != id ==> r[i] == snippets[i]
  {
    Map(snippets, Revise(id, title, code, language, tags))
  }

  /** The callback of toggleStar's map. */
  function FlipStar(id: string): Snippet -> Snippet {
    (s: Snippet) => if s.id == id then s.(starred := !s.starred) else s
  }

  /**
   * The list toggleStar builds: same length and order; the star flips on
   * the snippets with that id and nothing else changes.
   */
  function ToggleStarred(snippets: seq<Snippet>, id: string): (r: seq<Snippet>)
    ensures |r| == |snippets|
    ensures forall i :: 0 <= i < |r| ==> r[i].starred == (snippets[i].starred != (snippets[i].id == id))
    ensures forall i :: 0 <= i < |r| ==> r[i].(starred := snippets[i].starred) == snippets[i]
  {
    Map(snippets, FlipStar(id))
  }

  /** Toggling the same id twice restores the list. */
  lemma {:induction false} ToggleTwice(snippets: seq<Snippet>, id: string)
    ensures ToggleStarred(ToggleStarred(snippets, id), id) == snippets
  {
    var once := ToggleStarred(snippets, id);
    var twice := ToggleStarred(once, id);
    forall i | 0 <= i < |snippets| ensures twice[i] == snippets[i] {
      assert once[i].id == snippets[i].id;
    }
  }

  /** The callback of deleteSnippet's filter. */
  function KeepOther(id: string): Snippet -> bool {
    (s: Snippet) => s.id != id
  }

  /**
   * The list deleteSnippet builds: no snippet with that id is left, every
   * other snippet is kept as often as it occurred, and the order is kept.
   */
  function RemoveSnippets(snippets: seq<Snippet>, id: string): (r: seq<Snippet>)
    ensures forall s :: s in r ==> s in snippets && s.id != id
    ensures forall s :: s in snippets && s.id != id ==> s in r
    ensures forall s | s in snippets :: multiset(r)[s] == if s.id == id then 0 else multiset(snippets)[s]
    ensures IsSubseq(r, snippets)
  {
    FilterIsSubseq(snippets, KeepOther(id));
    Filter(snippets, KeepOther(id))
  }

  /** Deleting an id that no snippet has leaves the list unchanged. */
  lemma {:induction false} RemoveAbsent(snippets: seq<Snippet>, id: string)
    requires forall s :: s in snippets ==> s.id != id
    ensures RemoveSnippets(snippets, id) == snippets
  {
    FilterAll(snippets, KeepOther(id));
  }

  // ---------------------------------------------------------------- view

  /**
   * The view's filter: the snippet has the selected language, when one is
   * selected, and its title, code or one of its tags contains the search
   * text ignoring letter case, when there is search text.
   */
  predicate Visible(s: Snippet, language: string, search: string) {
    && (language == "" || s.language == language)
    && (search == ""
        || Contains(Lower(s.title), Lower(search))
        || Contains(Lower(s.code), Lower(search))
        || exists t :: t in s.tags && Contains(Lower(t), Lower(search)))
  }

  function VisibleWith(language: string, search: string): Snippet -> bool {
    (s: Snippet) => Visible(s, language, search)
  }

  /**
   * The sort comparator's order: a starred snippet comes before an
   * unstarred one; otherwise the titles decide.
   */
  predicate Precedes(a: Snippet, b: Snippet) {
    if a.starred != b.starred then a.starred else LexLe(a.title, b.title)
  }

  lemma {:induction false} PrecedesTotal(a: Snippet, b: Snippet)
    ensures Precedes(a, b) || Precedes(b, a)
  {
    LexLeTotal(a.title, b.title);
  }

  lemma {:induction false} PrecedesTrans(a: Snippet, b: Snippet, c: Snippet)
    requires Precedes(a, b) && Precedes(b, c)
    ensures Precedes(a, c)
  {
    if a.starred == b.starred == c.starred {
      LexLeTrans(a.title, b.title, c.title);
    }
  }

  predicate IsSorted(s: seq<Snippet>) {
    forall i, j :: 0 <= i < j < |s| ==> Precedes(s[i], s[j])
  }

  /** `x` placed before the first element it precedes. */
  function Insert(x: Snippet, s: seq<Snippet>): seq<Snippet> {
    if s == [] || Precedes(x, s[0]) then [x] + s else [s[0]] + Insert(x, s[1..])
  }

  /** Array.prototype.sort with the view's comparator (a stable insertion sort). */
  function Sort(s: seq<Snippet>): seq<Snippet> {
    if s == [] then [] else Insert(s[0], Sort(s[1..]))
  }

  lemma {:induction false} InsertPermutes(x: Snippet, s: seq<Snippet>)
    ensures multiset(Insert(x, s)) == multiset(s) + multiset{x}
  {
    if s != [] && !Precedes(x, s[0]) {
      InsertPermutes(x, s[1..]);
      assert s == [s[0]] + s[1..];
    }
  }

  /** A sorted list stays sorted with an element in front that precedes all of it. */
  lemma {:induction false} SortedCons(h: Snippet, t: seq<Snippet>)
    requires IsSorted(t)
    requires forall y | y in t :: Precedes(h, y)
    ensures IsSorted([h] + t)
  {
    var r := [h] + t;
    forall i, j | 0 <= i < j < |r| ensures Precedes(r[i], r[j]) {
      if i > 0 {
        assert r[i] == t[i - 1] && r[j] == t[j - 1];
      } else {
        assert r[j] in t;
      }
    }
  }

  /** The head of a sorted list precedes every later element. */
  lemma {:induction false} HeadPrecedesRest(s: seq<Snippet>)
    requires IsSorted(s) && s != []
    ensures forall y | y in s[1..] :: Precedes(s[0], y)
  {
    forall y | y in s[1..] ensures Precedes(s[0], y) {
      var k :| 0 <= k < |s[1..]| && s[1..][k] == y;
      assert s[k + 1] == y;
    }
  }

  lemma {:induction false} InsertSorted(x: Snippet, s: seq<Snippet>)
    requires IsSorted(s)
    ensures IsSorted(Insert(x, s))
  {
    if s == [] {
    } else if Precedes(x, s[0]) {
      forall y | y in s ensures Precedes(x, y) {
        var k :| 0 <= k < |s| && s[k] == y;
        if k > 0 {
          PrecedesTrans(x, s[0], s[k]);
        }
      }
      SortedCons(x, s);
    } else {
      PrecedesTotal(x, s[0]);
      var tail := Insert(x, s[1..]);
      assert IsSorted(s[1..]) by {
        forall i, j | 0 <= i < j < |s[1..]| ensures Precedes(s[1..][i], s[1..][j]) {
          assert s[1..][i] == s[i + 1] && s[1..][j] == s[j + 1];
        }
      }
      InsertSorted(x, s[1..]);
      InsertPermutes(x, s[1..]);
      HeadPrecedesRest(s);
      forall y | y in tail ensures Precedes(s[0], y) {
        assert y in multiset(tail);
        if y != x {
          assert y in multiset(s[1..]);
        }
      }
      SortedCons(s[0], tail);
    }
  }

  lemma {:induction false} SortPermutes(s: seq<Snippet>)
    ensures multiset(Sort(s)) == multiset(s)
  {
    if s != [] {
      SortPermutes(s[1..]);
      InsertPermutes(s[0], Sort(s[1..]));
      assert s == [s[0]] + s[1..];
    }
  }

  lemma {:induction false} SortSorts(s: seq<Snippet>)
    ensures IsSorted(Sort(s))
  {
    if s != [] {
      SortSorts(s[1..]);
      InsertSorted(s[0], Sort(s[1..]));
    }
  }

  /**
   * filteredSnippets: a permutation of exactly the visible snippets (each
   * as often as in the list), with every starred snippet before every
   * unstarred one and the titles in order within each group.
   */
  function View(snippets: seq<Snippet>, language: string, search: string): (r: seq<Snippet>)
    ensures forall s | s in snippets :: multiset(r)[s] == if Visible(s, language, search) then multiset(snippets)[s] else 0
    ensures forall s :: s in r ==> s in snippets && Visible(s, language, search)
    ensures forall i, j :: 0 <= i < j < |r| && r[j].starred ==> r[i].starred
    ensures forall i, j :: 0 <= i < j < |r| && r[i].starred == r[j].starred ==> LexLe(r[i].title, r[j].title)
  {
    var kept := Filter(snippets, VisibleWith(language, search));
    SortPermutes(kept);
    SortSorts(kept);
    var r := Sort(kept);
    assert forall s :: s in r ==> s in multiset(kept);
    r
  }

  // --------------------------------------------------------------- state

  /** What a save reported to the user. */
  datatype SaveOutcome = MissingFields | Updated | Created

  /** The SnippetManager component's state. */
  class SnippetManager {
    var snippets: seq<Snippet>
    var searchText: string
    var filterLanguage: string
    var title: string
    var code: string
    var language: string
    var tags: string
    var editingId: Option<string>

    /** The form as resetForm leaves it. */
    predicate FormIsReset()
      reads this
    {
      title == "" && code == "" && language == DefaultLanguage && tags == "" && editingId == None
    }

    /** Both a title and code are filled in. */
    predicate HasRequiredFields()
      reads this
    {
      title != "" && code != ""
    }

    /**
     * `if (editingId)`: a snippet is being edited when the id is set and
     * is not the empty string.
     */
    predicate IsEditing()
      reads this
    {
      editingId.Some? && editingId.value != ""
    }

    /** Starts from the list loaded from storage (or the two default snippets). */
    constructor (initial: seq<Snippet>)
      ensures snippets == initial && FormIsReset()
      ensures searchText == "" && filterLanguage == ""
    {
      snippets := initial;
      searchText, filterLanguage := "", "";
      title, code, language, tags := "", "", DefaultLanguage, "";
      editingId := None;
    }

    /** resetForm: clears the form and stops editing; the list and the filters stay. */
    method ResetForm()
      modifies this`title, this`code, this`language, this`tags, this`editingId
      ensures FormIsReset()
    {
      title, code, language, tags := "", "", DefaultLanguage, "";
      editingId := None;
    }

    /**
     * handleSaveSnippet. Without a title or without code nothing changes.
     * Otherwise the tags field is parsed, and either the snippet being
     * edited takes the form's values or a new unstarred snippet, whose id is
     * the decimal text of `now` (Date.now()), is appended; then the form is
     * reset.
     */
    method SaveSnippet(now: nat) returns (outcome: SaveOutcome)
      modifies this`snippets, this`title, this`code, this`language, this`tags, this`editingId
      ensures if !old(HasRequiredFields()) then
          && outcome == MissingFields && snippets == old(snippets)
          && title == old(title) && code == old(code) && language == old(language)
          && tags == old(tags) && editingId == old(editingId)
        else if old(IsEditing()) then
          && outcome == Updated && FormIsReset()
          && snippets == UpdateSnippets(old(snippets), old(editingId).value, old(title), old(code), old(language), ParseTags(old(tags)))
        else
          && outcome == Created && FormIsReset()
          && snippets == old(snippets) + [Snippet(NatToString(now), old(title), old(code), old(language), ParseTags(old(tags)), false)]
    {
      if HasRequiredFields() {
        var parsed := ParseTags(tags);
        if IsEditing() {
          snippets := UpdateSnippets(snippets, editingId.value, title, code, language, parsed);
          outcome := Updated;
        } else {
          snippets := snippets + [Snippet(NatToString(now), title, code, language, parsed, false)];
          outcome := Created;
        }
        ResetForm();
      } else {
        outcome := MissingFields;
      }
    }

    /** editSnippet: loads a snippet into the form, tags joined by ", ", and marks it as being edited. */
    method EditSnippet(s: Snippet)
      modifies this`title, this`code, this`language, this`tags, this`editingId
      ensures title == s.title && code == s.code && language == s.language
      ensures tags == Join(s.tags, ", ") && editingId == Some(s.id)
    {
      title, code, language := s.title, s.code, s.language;
      tags := Join(s.tags, ", ");
      editingId := Some(s.id);
    }

    /** deleteSnippet: drops the snippets with that id; deleting the one being edited resets the form. */
    method DeleteSnippet(id: string)
      modifies this`snippets, this`title, this`code, this`language, this`tags, this`editingId
      ensures snippets == RemoveSnippets(old(snippets), id)
      ensures old(editingId) == Some(id) ==> FormIsReset()
      ensures old(editingId) != Some(id) ==>
        title == old(title) && code == old(code) && language == old(language) && tags == old(tags) && editingId == old(editingId)
    {
      snippets := RemoveSnippets(snippets, id);
      if editingId == Some(id) {
        ResetForm();
      }
    }

    /** toggleStar: flips the star of the snippets with that id; the form is untouched. */
    method ToggleStar(id: string)
      modifies this`snippets
      ensures snippets == ToggleStarred(old(snippets), id)
    {
      snippets := ToggleStarred(snippets, id);
    }

    /** filteredSnippets for the current list, language filter and search text. */
    function FilteredSnippets(): seq<Snippet>
      reads this
    {
      View(snippets, filterLanguage, searchText)
    }
  }
}
