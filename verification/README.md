# Developer toolbox: snippets, notes, timer text and git cheat-sheet

This Dafny project models the logic behind four widgets of a React
developer toolbox:

- **Snippet manager** (`SnippetManager.tsx`). This is the class
  `Snippets.SnippetManager`. It holds the list of snippets, the create/edit
  form (title, code, language, the comma-separated tags field) and the id of
  the snippet being edited. Saving validates the form. It then either updates
  the snippet being edited or appends a new unstarred one, and resets the
  form. Snippets can also be loaded into the form, deleted and starred. The
  view filters the list by language and by case-insensitive search over the
  title, the code and the tags. It then sorts starred snippets first and
  orders each group by title.
- **Notes store** (`NotesContext.tsx`). This is the class `Notes.NotesStore`.
  It holds a list of sticky notes with add, partial-merge update
  (`{ ...note, ...updates }`) and delete, all keyed by id.
- **Pomodoro timer text** (`PomodoroTimer.tsx`).
  - `formatTime` renders a number of seconds as `MM:SS`, with each field
    zero-padded to two digits.
  - `getMaxTime` gives the length in seconds of the current period.
- **Git cheat-sheet** (`GitHelper.tsx`). This covers the constant catalogue of
  28 commands in five categories and the list the widget shows. With an empty
  query that list is the selected category. Otherwise it is every command in
  the catalogue whose name, command or description contains the query,
  ignoring letter case.

Every list update the widgets perform builds a new list with JavaScript's
`map`, `filter`, spread or `sort`. Those lists are pure functions over `seq`:

- `Seqs.Map` and `Seqs.Filter` model `map` and `filter`;
- `Snippets.Sort` models `sort` with the view's comparator.

The React state that the setters replace is modelled as class fields, which
the methods reassign. The string built-ins have their own functions:

- `toLowerCase` is `Text.Lower`;
- `includes` is `Text.Contains`;
- `trim` is `Text.Trim`;
- `split` is `Text.Split`;
- `join` is `Text.Join`;
- `localeCompare` is `Text.LexLe`;
- `padStart` is `Numerals.PadStart`;
- `Number.prototype.toString` is `Numerals.IntToString`.

Modules:

| file | module | what |
|---|---|---|
| wrappers.dfy | Wrappers | `Option` |
| seqs.dfy | Seqs | map, filter, subsequence order |
| text.dfy | Text | lower-casing, substring search, trimming, split/join, lexicographic order |
| numerals.dfy | Numerals | decimal numerals, zero padding, reading digits back |
| snippets.dfy | Snippets | the snippet manager |
| notes.dfy | Notes | the notes store |
| pomodoro.dfy | Pomodoro | `formatTime`, `getMaxTime` |
| git_helper.dfy | GitHelper | the git catalogue and its search |

## Model

| member | source | states |
|---|---|---|
| Snippets.SnippetManager.constructor | src/components/tools/SnippetManager.tsx:55-64 | The state starts from the given list, with an empty search and language filter and the form empty except for the language 'javascript'. Nothing is being edited. |
| Snippets.SnippetManager.ResetForm | src/components/tools/SnippetManager.tsx:73-79 | Empties title, code and tags, sets the language back to 'javascript' and stops editing. It may modify only the form fields, so the list and the filters stay. |
| Snippets.SnippetManager.SaveSnippet | src/components/tools/SnippetManager.tsx:81-126 | Without a title or without code, the outcome is MissingFields and the list, the form and the editing id are all unchanged. While editing, the list becomes UpdateSnippets with the parsed tags. Otherwise one new unstarred snippet is appended after the unchanged old list; it carries the form's values, the parsed tags and the decimal text of `now` as its id. In both saving cases the form is then reset. |
| Snippets.SnippetManager.EditSnippet | src/components/tools/SnippetManager.tsx:128-134 | The form holds the snippet's title, code and language, its tags joined by ", ", and its id as the editing id. |
| Snippets.SnippetManager.DeleteSnippet | src/components/tools/SnippetManager.tsx:136-145 | The list becomes RemoveSnippets of the old list. Deleting the snippet being edited resets the form. Otherwise the form and the editing id are unchanged. |
| Snippets.SnippetManager.ToggleStar | src/components/tools/SnippetManager.tsx:147-153 | The list becomes ToggleStarred of the old list. Only the list may change. |
| Snippets.KeepTagsIsFilterMap | src/components/tools/SnippetManager.tsx:91-94 | The tag pipeline is exactly a trim `map` followed by a filter that keeps non-empty strings. |
| Snippets.KeepTagsWellFormed | src/components/tools/SnippetManager.tsx:93-94 | Trimmed, non-empty pieces without a comma are well-formed tags. |
| Snippets.KeepTagsConcat | src/components/tools/SnippetManager.tsx:93-94 | The pipeline distributes over concatenation of the piece lists. |
| Snippets.ParseTagsWellFormed | src/components/tools/SnippetManager.tsx:91-94 | Every parsed tag is non-empty, has no whitespace at either end and contains no comma. |
| Snippets.ParseTagsConcat | src/components/tools/SnippetManager.tsx:91-94 | Tags keep their input order: the tags of `a,b` are the tags of `a` followed by those of `b`. |
| Snippets.ParseTagsSingle | src/components/tools/SnippetManager.tsx:91-94 | A field without a comma yields its trimmed text as the only tag, or no tag when the trimmed text is empty. |
| Snippets.ParseTagsJoin | src/components/tools/SnippetManager.tsx:91-94 | Edit-then-save round trip: parsing well-formed tags joined by ", " gives back the same tags in the same order, even with leading whitespace. |
| Snippets.UpdateSnippets | src/components/tools/SnippetManager.tsx:96-101 | The update keeps length and order. Each snippet with that id takes the new title, code, language and tags and keeps its id and star. Every other snippet is unchanged. |
| Snippets.ToggleStarred | src/components/tools/SnippetManager.tsx:148-152 | Toggling keeps length and order. The star flips exactly on the snippets with that id, and no other field or snippet changes. |
| Snippets.ToggleTwice | src/components/tools/SnippetManager.tsx:148-152 | Toggling the same id twice restores the list. |
| Snippets.RemoveSnippets | src/components/tools/SnippetManager.tsx:137 | No snippet with that id remains. Every other snippet is kept with its multiplicity and in its order, as a subsequence. |
| Snippets.RemoveAbsent | src/components/tools/SnippetManager.tsx:137 | Deleting an id that no snippet has leaves the list unchanged. |
| Snippets.PrecedesTotal | src/components/tools/SnippetManager.tsx:190-197 | The comparator orders any two snippets one way or the other. |
| Snippets.PrecedesTrans | src/components/tools/SnippetManager.tsx:190-197 | The comparator's order is transitive. |
| Snippets.InsertPermutes | src/components/tools/SnippetManager.tsx:190-197 | One insertion step adds exactly the inserted snippet to the multiset. |
| Snippets.InsertSorted | src/components/tools/SnippetManager.tsx:190-197 | Inserting into a sorted list keeps it sorted. |
| Snippets.SortPermutes | src/components/tools/SnippetManager.tsx:190-197 | The sort is a permutation of its input. |
| Snippets.SortSorts | src/components/tools/SnippetManager.tsx:190-197 | The sorted list is ordered by the comparator. |
| Snippets.View | src/components/tools/SnippetManager.tsx:174-197 | The view is a permutation of exactly the visible snippets, each with its multiplicity. A visible snippet matches the language when one is set, and its title, code or a tag contains the search text ignoring case, unless that text is empty. Every starred snippet comes before every unstarred one. Within each group the titles are in order. |
| Notes.Merge | src/context/NotesContext.tsx:56 | Every field present in the update overwrites the note's field, and every absent field keeps the note's value. |
| Notes.MergeNoChange | src/context/NotesContext.tsx:56 | The empty update `{}` is the identity. |
| Notes.MergeIdempotent | src/context/NotesContext.tsx:56 | Merging the same update twice is the same as merging it once. |
| Notes.MergeThen | src/context/NotesContext.tsx:56 | Two merges in a row equal one merge of the combined update, where the later update wins. |
| Notes.UpdateNotes | src/context/NotesContext.tsx:53-59 | The update keeps length and order. Each note with that id is merged with the update, and every other note is unchanged. |
| Notes.UpdateAbsent | src/context/NotesContext.tsx:55-57 | Updating an id that no note has leaves the list unchanged. |
| Notes.UpdateNoChange | src/context/NotesContext.tsx:53-59 | An empty update leaves the list unchanged. |
| Notes.RemoveNotes | src/context/NotesContext.tsx:61-63 | No note with that id remains. Every other note is kept with its multiplicity and in its order, as a subsequence. |
| Notes.RemoveIdempotent | src/context/NotesContext.tsx:62 | Deleting the same id twice is the same as deleting it once. |
| Notes.RemoveAbsent | src/context/NotesContext.tsx:62 | Deleting an id that no note has leaves the list unchanged. |
| Notes.NotesStore.constructor | src/context/NotesContext.tsx:15-31 | The store starts from the given list. |
| Notes.NotesStore.AddNote | src/context/NotesContext.tsx:42-51 | Exactly one note is appended after the unchanged old list. It has the given id, content, colour, position and creation time. |
| Notes.NotesStore.UpdateNote | src/context/NotesContext.tsx:53-59 | The list becomes UpdateNotes of the old list. |
| Notes.NotesStore.DeleteNote | src/context/NotesContext.tsx:61-63 | The list becomes RemoveNotes of the old list. |
| Pomodoro.JsRem | src/components/tools/PomodoroTimer.tsx:29 | JavaScript's `%`: the dividend minus the result is a multiple of the divisor. For a non-negative dividend the result is the mathematical remainder; for a negative one it lies in (-b, 0], which together fix it as the remainder of truncating division. |
| Pomodoro.FieldDigits | src/components/tools/PomodoroTimer.tsx:30 | A padded field of a non-negative number is all digits, at least two of them, and reads back as the number. Below 100 it has exactly two digits. |
| Pomodoro.FormatTimeFields | src/components/tools/PomodoroTimer.tsx:27-31 | For a non-negative count, the display is the field of seconds div 60, then ':', then the field of seconds mod 60. The seconds value is below 60. |
| Pomodoro.FormatTimeShape | src/components/tools/PomodoroTimer.tsx:27-31 | The display is MM ":" SS. MM reads as seconds div 60 and SS as seconds mod 60. SS has exactly two digits and is below 60. Below 6000 seconds the display is exactly five characters with ':' at index 2. |
| Pomodoro.FieldsClock | src/components/tools/PomodoroTimer.tsx:30 | Two padded fields joined by ':' read back as the two numbers. |
| Pomodoro.FormatTimeRoundTrip | src/components/tools/PomodoroTimer.tsx:28-30 | Reading the two fields back and computing MM*60 + SS gives the original count. |
| Pomodoro.FormatTimeNegative | src/components/tools/PomodoroTimer.tsx:28-30 | A negative count shows a minus sign at the front. |
| Pomodoro.GetMaxTime | src/components/tools/PomodoroTimer.tsx:143-153 | The result is 60 times the duration of the status: work gives workDuration, break gives breakDuration and longBreak gives longBreakDuration. Idle, the default branch, gives workDuration. |
| Pomodoro.MaxTimeDisplay | src/components/tools/PomodoroTimer.tsx:143-153 | A full period displays its duration in minutes with "00" seconds. |
| GitHelper.Search | src/components/tools/GitHelper.tsx:62-66 | The search result is exactly the catalogue commands whose name, command or description contains the query ignoring case, each as often as in the catalogue, in catalogue order. |
| GitHelper.EmptyQueryShowsCategory | src/components/tools/GitHelper.tsx:61-67 | With an empty query the list is the selected category, in declared order. |
| GitHelper.SearchSound | src/components/tools/GitHelper.tsx:62-66 | With a query, every listed command is in the catalogue and matches the query. |
| GitHelper.SearchComplete | src/components/tools/GitHelper.tsx:62-66 | With a query, every catalogue command that matches the query is listed. |
| GitHelper.ResultInCatalogueOrder | src/components/tools/GitHelper.tsx:13-52 | The list is always a subsequence of the catalogue flattened in category order. |
| GitHelper.CategoryInCatalogue | src/components/tools/GitHelper.tsx:62 | Each category is a subsequence of the flattened catalogue. |
| GitHelper.SearchIgnoresCategory | src/components/tools/GitHelper.tsx:61-66 | With a query, the selected category does not affect the list. |
| GitHelper.SearchIgnoresCase | src/components/tools/GitHelper.tsx:63-65 | Queries that differ only in letter case give the same list. |
| Text.Lower | src/components/tools/GitHelper.tsx:63-65 | Lower-casing keeps the length and puts LowerChar of the input's character at each index, so no upper-case ASCII letter is left. |
| Text.LowerChar | src/components/tools/SnippetManager.tsx:182-187 | An upper-case ASCII letter becomes its lower-case letter, and every other character is unchanged. |
| Text.ContainsIff | src/components/tools/SnippetManager.tsx:184-187 | `includes` holds exactly when the query occurs at some index. |
| Text.Trim | src/components/tools/SnippetManager.tsx:93 | The trimmed string has no whitespace at either end, and each of its characters comes from the input. |
| Text.TrimSlice | src/components/tools/SnippetManager.tsx:93 | Trimming removes only whitespace: the result is a slice of the input with all-whitespace text on either side. |
| Text.Split | src/components/tools/SnippetManager.tsx:92 | Splitting gives at least one piece, and no piece contains the separator. |
| Text.JoinSplit | src/components/tools/SnippetManager.tsx:92 | Joining the pieces with the separator gives the input back. |
| Text.SplitJoin | src/components/tools/SnippetManager.tsx:92 | Split is the inverse of a one-character join: splitting pieces that were joined with a separator they do not contain gives the pieces back. |
| Text.LexLeTotal | src/components/tools/SnippetManager.tsx:196 | Any two titles compare one way or the other. |
| Text.LexLeTrans | src/components/tools/SnippetManager.tsx:196 | Title comparison is transitive. |
| Text.LexLeAntisymmetric | src/components/tools/SnippetManager.tsx:196 | Titles that compare both ways are equal. |
| Seqs.Map | src/context/NotesContext.tsx:55-57 | `map` keeps the length and puts the callback's value of each element at the same index. Also used at src/components/tools/SnippetManager.tsx:97-101 and 148-152. |
| Seqs.Filter | src/context/NotesContext.tsx:62 | `filter` keeps exactly the elements that pass the callback, each as often as in the input. Every kept element is from the input and passes. Also used at src/components/tools/SnippetManager.tsx:137 and 175-189 and src/components/tools/GitHelper.tsx:62-66. |
| Seqs.FilterIsSubseq | src/context/NotesContext.tsx:62 | What a filter keeps is a subsequence of its input, so the original order is kept. |
| Numerals.NatToString | src/components/tools/SnippetManager.tsx:110 | The decimal text of a non-negative number is a non-empty string of digits without a leading zero, and reads back as the number (ParseNatToString). |
| Numerals.IntToString | src/components/tools/PomodoroTimer.tsx:30 | Decimal text has a minus sign for negatives, then the digits of the magnitude without a leading zero. |
| Numerals.ParseNatToString | src/components/tools/PomodoroTimer.tsx:30 | Reading the decimal text of a number gives back the number. |
| Numerals.PadStart | src/components/tools/PomodoroTimer.tsx:30 | The padded string has the larger of the two lengths, ends with the input and has only fill characters in front of it. |
| Numerals.ParsePadded | src/components/tools/PomodoroTimer.tsx:30 | A zero-padded numeral is all digits and reads back as the number. |

## Left out

- localStorage. Loading and saving snippets (`getInitialSnippets` and the save effect) and notes (with the Date/ISO-string conversion) are browser I/O. The constructors take the initial list instead, and the default snippets are not reproduced.
- Id and clock sources. `Date.now()`, `crypto.randomUUID()` and `new Date()` are parameters: `now` in `SaveSnippet`, and `id` and `now` in `AddNote`. `createdAt` is an integer time in milliseconds.
- Toasts and clipboard writes are fire-and-forget side effects. `SaveSnippet` returns the outcome it would have reported instead.
- The input setters (`setSearchText`, `setFilterLanguage`, `setTitle` and the like) are plain assignments of one field and are not modelled as methods. The widgets' markup, the progress ring (floating point with π), the timer state machine and the other widgets are not part of this model.
- Text.LexLe: `localeCompare` is locale-dependent. It is modelled as plain code-point lexicographic order, a total order.
- Text.Lower: it lower-cases ASCII letters only; JavaScript's Unicode case mapping is not modelled.
- Text.Trim: it strips ASCII whitespace (space, tab, line feed, carriage return, vertical tab, form feed) only; the other Unicode white space and line terminators that JavaScript's `trim` removes are not modelled.
- Snippets.Sort: `Array.prototype.sort` is modelled as a stable insertion sort. The properties proved about the view (a permutation of the visible snippets, starred first, titles in order) hold for any sort with this comparator. Like the engine's sort (stable since ECMAScript 2019), the model's sort keeps snippets with equal keys in their list order, but the contract of `View` does not state that stability.
- Snippets.SnippetManager.IsEditing: `if (editingId)` also treats an empty-string id as "not editing", so an empty id is modelled as not editing.
- Notes.NoteUpdate: a `Partial<Note>` key that is present with the value `undefined` (which the spread copies as `undefined`) is not modelled. A field is either present with a value or absent.
- Notes.Position: positions are mathematical reals rather than IEEE doubles.
- Pomodoro.FormatTime: it takes an integer number of seconds. A fractional JavaScript number, which would show a fractional seconds field, is not modelled. It has no contract of its own; its properties are the lemmas FormatTimeFields, FormatTimeShape, FormatTimeRoundTrip and FormatTimeNegative.
- Pomodoro.GetMaxTime: it takes the status and the settings as parameters instead of reading them from the pomodoro context, which is not part of this model. The durations are integers; a NaN that `parseInt` gives for an emptied settings field is not modelled.
- GitHelper.FilteredCommands: it has no contract of its own. The properties are proved about `Filtered` for every catalogue, and FilteredCommands is `Filtered` applied to the cheat-sheet's literal catalogue (`Commands`).
- Snippets.SnippetManager.FilteredSnippets: it has no contract of its own; it is `View` of the current list, language filter and search text, and its properties are View's.
- Snippets.ParseTags: it has no contract of its own. It is KeepTags of the field split at ',', and its properties are the lemmas KeepTagsIsFilterMap, ParseTagsWellFormed, ParseTagsConcat, ParseTagsSingle and ParseTagsJoin.
- Snippets.Visible: the filter callback of src/components/tools/SnippetManager.tsx:175-188, a predicate with no contract of its own; what it keeps is stated by `View`'s contract.
- Snippets.Precedes: the sort comparator of src/components/tools/SnippetManager.tsx:190-197, a predicate with no contract of its own; it is a total, transitive order by PrecedesTotal and PrecedesTrans, and `View`'s contract states the order it gives.
- Text.Contains: `includes` has no contract of its own; ContainsIff states it holds exactly when the query occurs at some index.
- Text.Join: `join` has no contract of its own; JoinSplit and SplitJoin state that it undoes `Split` and is undone by it.
