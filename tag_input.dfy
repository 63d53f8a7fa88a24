/** The tag input: the tags chosen for a record, the text being typed, and
    the drop-down of suggestions from the global tag list. */
module TagInput {
  import opened Text
  import opened SeqUtil
  import TagSet
  import opened Store

  /** A global tag is suggested when it contains the typed text, ignoring
      case, and is not chosen yet. */
  predicate Suggests(tag: string, input: string, chosen: seq<string>) {
    Contains(Lower(tag), Lower(input)) && tag !in chosen
  }

  function SuggestFilter(input: string, chosen: seq<string>): string -> bool {
    (tag: string) => Suggests(tag, input, chosen)
  }

  /** `suggestions`: the global tags suggested, in the global list's order. */
  function Suggestions(allTags: seq<string>, input: string, chosen: seq<string>): seq<string> {
    Filter(allTags, SuggestFilter(input, chosen))
  }

  /** The suggestions are exactly the global tags that contain the typed
      text and are not chosen; with nothing typed, every global tag not
      chosen yet. */
  lemma SuggestionsMeaning(allTags: seq<string>, input: string, chosen: seq<string>, tag: string)
    ensures tag in Suggestions(allTags, input, chosen) <==>
      tag in allTags && tag !in chosen && Contains(Lower(tag), Lower(input))
    ensures input == "" ==> (tag in Suggestions(allTags, input, chosen) <==> tag in allTags && tag !in chosen)
  {
    FilterMembership(allTags, SuggestFilter(input, chosen), tag);
    ContainsLaws(Lower(tag), "");
  }

  /** The "Create" entry: offered when something is typed that is not,
      exactly as typed, a global tag. */
  predicate ShowsCreate(input: string, allTags: seq<string>) {
    input != "" && input !in allTags
  }

  /** The drop-down is shown while the suggestions are open and there is a
      suggestion or something typed. */
  predicate ShowsDropdown(open: bool, allTags: seq<string>, input: string, chosen: seq<string>) {
    open && (|Suggestions(allTags, input, chosen)| > 0 || input != "")
  }

  /** Removing a tag from a list without duplicates leaves one without duplicates. */
  lemma {:induction false} RemoveKeepsNoDuplicates(tags: seq<string>, tag: string)
    requires TagSet.NoDuplicates(tags)
    ensures TagSet.NoDuplicates(TagSet.RemoveTag(tags, tag))
    decreases |tags|
  {
    if tags != [] {
      var init := tags[..|tags| - 1];
      var last := tags[|tags| - 1];
      RemoveKeepsNoDuplicates(init, tag);
      if last != tag {
        var r := TagSet.RemoveTag(init, tag);
        assert last !in init;
        assert last !in r;
        var s := r + [last];
        forall i, j | 0 <= i < j < |s|
          ensures s[i] != s[j]
        {
          if j == |s| - 1 {
            assert s[i] in r;
          }
        }
      }
    }
  }

  /** Backspace in an empty input drops the last tag chosen: with no
      duplicates that is exactly the last one. */
  lemma BackspaceDropsLast(chosen: seq<string>)
    requires |chosen| > 0 && TagSet.NoDuplicates(chosen)
    ensures TagSet.RemoveTag(chosen, chosen[|chosen| - 1]) == chosen[..|chosen| - 1]
  {
    var init := chosen[..|chosen| - 1];
    assert chosen[|chosen| - 1] !in init;
    TagSet.RemoveTagLaws(init, chosen[|chosen| - 1]);
  }

  datatype Key = Enter | Backspace | Escape | OtherKey

  /** The component's state; `value` is the list of chosen tags, which the
      parent hands in and takes back through `onChange`. The handlers accept
      any list; `Valid` (no tag chosen twice) is kept once it holds. */
  class TagInputState {
    var inputValue: string
    var showSuggestions: bool
    var value: seq<string>

    predicate Valid()
      reads this
    {
      TagSet.NoDuplicates(value)
    }

    constructor(value: seq<string>)
      ensures this.value == value && inputValue == "" && !showSuggestions
    {
      this.value := value;
      inputValue := "";
      showSuggestions := false;
    }

    /** Typing: the text changes and the suggestions open. */
    method OnChange(text: string)
      modifies this`inputValue, this`showSuggestions
      ensures inputValue == text && showSuggestions
    {
      inputValue := text;
      showSuggestions := true;
    }

    method OnFocus()
      modifies this`showSuggestions
      ensures showSuggestions
    {
      showSuggestions := true;
    }

    /** The timer set on blur has fired. */
    method BlurTimeout()
      modifies this`showSuggestions
      ensures !showSuggestions
    {
      showSuggestions := false;
    }

    /** `handleAddTag`: the trimmed tag is chosen unless it is blank or
        chosen already, and joins the global list if new there; either way
        the input is cleared and the suggestions close. */
    method HandleAddTag(tag: string, store: AppStore)
      modifies this`value, this`inputValue, this`showSuggestions, store`tags
      ensures old(Valid()) ==> Valid()
      ensures var t := Trim(tag);
        value == if t != "" && t !in old(value) then old(value) + [t] else old(value)
      ensures var t := Trim(tag);
        store.tags == if t != "" && t !in old(value) then TagSet.AddTag(old(store.tags), t) else old(store.tags)
      ensures Trim(tag) != "" ==> Trim(tag) in value && Trim(tag) !in Suggestions(store.tags, inputValue, value)
      ensures inputValue == "" && !showSuggestions
    {
      var trimmed := Trim(tag);
      if trimmed != "" && trimmed !in value {
        value := value + [trimmed];
        if trimmed !in store.tags {
          store.AddTag(trimmed);
        }
      }
      inputValue := "";
      showSuggestions := false;
      SuggestionsMeaning(store.tags, inputValue, value, trimmed);
    }

    /** `handleRemoveTag`: every occurrence of the tag is dropped. */
    method HandleRemoveTag(tag: string)
      modifies this`value
      ensures old(Valid()) ==> Valid()
      ensures value == TagSet.RemoveTag(old(value), tag)
      ensures tag !in value
    {
      if Valid() {
        RemoveKeepsNoDuplicates(value, tag);
      }
      value := TagSet.RemoveTag(value, tag);
    }

    /** `handleKeyDown`: Enter adds what is typed, Backspace in an empty
        input drops the last tag (with every copy of it), Escape closes the
        suggestions. */
    method HandleKeyDown(key: Key, store: AppStore)
      modifies this`value, this`inputValue, this`showSuggestions, store`tags
      ensures old(Valid()) ==> Valid()
      ensures key == Enter && old(inputValue) != "" ==>
        var t := Trim(old(inputValue));
        value == (if t != "" && t !in old(value) then old(value) + [t] else old(value)) &&
        inputValue == "" && !showSuggestions
      ensures key == Backspace && old(inputValue) == "" && |old(value)| > 0 ==>
        value == TagSet.RemoveTag(old(value), old(value)[|old(value)| - 1]) &&
        (old(Valid()) ==> value == old(value)[..|old(value)| - 1]) &&
        store.tags == old(store.tags)
      ensures key == Escape ==> !showSuggestions && value == old(value) && inputValue == old(inputValue)
      ensures key == OtherKey || (key == Enter && old(inputValue) == "") || (key == Backspace && (old(inputValue) != "" || old(value) == [])) ==>
        value == old(value) && inputValue == old(inputValue) && showSuggestions == old(showSuggestions)
      ensures key != Enter || old(inputValue) == "" ==> store.tags == old(store.tags)
    {
      if key == Enter && inputValue != "" {
        HandleAddTag(inputValue, store);
      } else if key == Backspace && inputValue == "" && |value| > 0 {
        if Valid() {
          BackspaceDropsLast(value);
        }
        HandleRemoveTag(value[|value| - 1]);
      } else if key == Escape {
        showSuggestions := false;
      }
    }
  }
}
