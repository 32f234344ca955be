/**
 * The tag editor of the map page (`TagSection`): a list of tags with
 * trim-and-append, removal by position, and an edit mode driven by the
 * "Agrega un tag" button, Enter, Escape and blur.
 */
module MapTags {
  import opened Text

  /** The two tag lists the map page starts with. */
  const FoodTagsIniciales: seq<string> := ["Chifa", "Broster"]
  const CareerTagsIniciales: seq<string> := ["Ing. Sistemas", "Ing. Software"]

  /**
   * `tags.filter((_, index) => index !== i)` over the part of the list that starts at
   * position `base`: the element at position `i` goes, the others stay in order.
   */
  function FiltrarIndice(s: seq<string>, i: int, base: int): (r: seq<string>)
    ensures base <= i < base + |s| ==> r == s[..i - base] + s[i - base + 1..]
    ensures !(base <= i < base + |s|) ==> r == s
    decreases |s|
  {
    if s == [] then []
    else
      var rest := FiltrarIndice(s[1..], i, base + 1);
      if base == i then
        assert rest == s[1..];
        rest
      else
        var r := [s[0]] + rest;
        assert base < i < base + |s| ==> r == s[..i - base] + s[i - base + 1..] by {
          if base < i < base + |s| {
            assert s[..i - base] == [s[0]] + s[1..][..i - base - 1];
            assert s[i - base + 1..] == s[1..][i - base..];
          }
        }
        r
  }

  /** `removeTag(i)`'s list: position `i` removed and the others kept in order; an out-of-range `i` changes nothing. */
  function SinIndice(tags: seq<string>, i: int): (r: seq<string>)
    ensures 0 <= i < |tags| ==> r == tags[..i] + tags[i + 1..] && |r| == |tags| - 1
    ensures !(0 <= i < |tags|) ==> r == tags
  {
    FiltrarIndice(tags, i, 0)
  }

  /** Every tag is non-empty and has no whitespace at either end. */
  predicate TagsLimpios(tags: seq<string>) {
    forall i :: 0 <= i < |tags| ==> tags[i] != "" && IsTrimmed(tags[i])
  }

  /** Appending a non-empty trimmed tag keeps a clean list clean. */
  lemma AppendKeepsLimpios(tags: seq<string>, t: string)
    requires t != "" && IsTrimmed(t)
    ensures TagsLimpios(tags) ==> TagsLimpios(tags + [t])
  {
    if TagsLimpios(tags) {
      forall i | 0 <= i < |tags + [t]| ensures (tags + [t])[i] != "" && IsTrimmed((tags + [t])[i]) {
        if i < |tags| { assert (tags + [t])[i] == tags[i]; }
      }
    }
  }

  /** The editor's state: the tag list (held by the page), the edit flag and the input text. */
  datatype TagState = TagState(tags: seq<string>, isEditing: bool, inputValue: string)

  /**
   * What the user can do. The button exists only outside edit mode, the input (typing,
   * keys, blur) only inside it; the remove buttons are always shown.
   */
  datatype TagEvento =
    | ClickAgregaTag
    | Escribe(v: string)
    | KeyDown(key: string)
    | Blur
    | ClickQuitar(i: int)

  /**
   * `handleAddTag`: non-blank input is appended trimmed and the input cleared; blank
   * input leaves tags and input as they are. Edit mode ends either way.
   */
  function AddTag(s: TagState): (r: TagState)
    ensures !r.isEditing
    ensures Trim(s.inputValue) != "" ==> r.tags == s.tags + [Trim(s.inputValue)] && r.inputValue == ""
    ensures Trim(s.inputValue) == "" ==> r.tags == s.tags && r.inputValue == s.inputValue
    ensures TagsLimpios(s.tags) ==> TagsLimpios(r.tags)
  {
    var t := Trim(s.inputValue);
    if t != "" then
      AppendKeepsLimpios(s.tags, t);
      TagState(s.tags + [t], false, "")
    else
      s.(isEditing := false)
  }

  /** `handleKeyDown`: Enter adds, Escape leaves edit mode and clears the input without touching the tags, any other key does nothing. */
  function KeyDownStep(s: TagState, key: string): (r: TagState)
    ensures key == "Enter" ==> r == AddTag(s)
    ensures key == "Escape" ==> r == TagState(s.tags, false, "")
    ensures key != "Enter" && key != "Escape" ==> r == s
  {
    if key == "Enter" then AddTag(s)
    else if key == "Escape" then s.(isEditing := false, inputValue := "")
    else s
  }

  /** One event on the editor; an event whose element is not rendered changes nothing. */
  function Step(s: TagState, e: TagEvento): TagState {
    match e
    case ClickAgregaTag => if !s.isEditing then s.(isEditing := true) else s
    case Escribe(v) => if s.isEditing then s.(inputValue := v) else s
    case KeyDown(key) => if s.isEditing then KeyDownStep(s, key) else s
    case Blur => if s.isEditing then AddTag(s) else s
    case ClickQuitar(i) => s.(tags := SinIndice(s.tags, i))
  }

  /** A sequence of events, applied in order. */
  function Run(s: TagState, es: seq<TagEvento>): TagState
    decreases |es|
  {
    if es == [] then s else Run(Step(s, es[0]), es[1..])
  }

  /** The page's initial tag lists are clean. */
  lemma TagsInicialesLimpios()
    ensures TagsLimpios(FoodTagsIniciales) && TagsLimpios(CareerTagsIniciales)
  {
  }

  /** Removing a position keeps a clean list clean. */
  lemma SinIndiceKeepsLimpios(tags: seq<string>, i: int)
    requires TagsLimpios(tags)
    ensures TagsLimpios(SinIndice(tags, i))
  {
    if 0 <= i < |tags| {
      var r := SinIndice(tags, i);
      forall j | 0 <= j < |r| ensures r[j] != "" && IsTrimmed(r[j]) {
        if j < i { assert r[j] == tags[j]; } else { assert r[j] == tags[j + 1]; }
      }
    }
  }

  /** Whatever the user does, a clean tag list stays clean: the editor never adds an empty or padded tag. */
  lemma {:induction false} RunKeepsTagsLimpios(s: TagState, es: seq<TagEvento>)
    requires TagsLimpios(s.tags)
    ensures TagsLimpios(Run(s, es).tags)
    decreases |es|
  {
    if es != [] {
      if es[0].ClickQuitar? {
        SinIndiceKeepsLimpios(s.tags, es[0].i);
      }
      RunKeepsTagsLimpios(Step(s, es[0]), es[1..]);
    }
  }

  /** Edit mode is entered only through the "Agrega un tag" button. */
  lemma EditModeOnlyFromButton(s: TagState, e: TagEvento)
    requires !s.isEditing && Step(s, e).isEditing
    ensures e == ClickAgregaTag
  {
  }

  /** Blur, Enter and Escape in edit mode all leave edit mode. */
  lemma EditModeEndsOnBlurEnterEscape(s: TagState, e: TagEvento)
    requires s.isEditing && (e == Blur || e == KeyDown("Enter") || e == KeyDown("Escape"))
    ensures !Step(s, e).isEditing
  {
  }

  /** The editor does not reject duplicates: a tag already in the list is appended again. */
  lemma DuplicatesAccepted(s: TagState)
    requires s.isEditing && s.inputValue in s.tags && s.inputValue != "" && IsTrimmed(s.inputValue)
    ensures Step(s, Blur).tags == s.tags + [s.inputValue]
    ensures KeyDownStep(s, "Enter").tags == s.tags + [s.inputValue]
  {
    TrimOfTrimmed(s.inputValue);
  }

  /** One tag section; `tags` is the list the page passes in together with its setter. */
  class TagSection {
    const title: string
    var tags: seq<string>
    var isEditing: bool
    var inputValue: string

    function State(): TagState
      reads this
    {
      TagState(tags, isEditing, inputValue)
    }

    constructor (title: string, tags: seq<string>)
      ensures this.title == title
      ensures State() == TagState(tags, false, "")
    {
      this.title := title;
      this.tags := tags;
      isEditing, inputValue := false, "";
    }

    /** The "Agrega un tag" button, shown only outside edit mode. */
    method ClickAgregaTag()
      requires !isEditing
      modifies this`isEditing
      ensures isEditing
      ensures State() == Step(old(State()), TagEvento.ClickAgregaTag)
    {
      isEditing := true;
    }

    /** Typing in the input, which exists only in edit mode. */
    method SetInputValue(v: string)
      requires isEditing
      modifies this`inputValue
      ensures inputValue == v
      ensures State() == Step(old(State()), Escribe(v))
    {
      inputValue := v;
    }

    /** `handleAddTag`, the blur handler of the input, which exists only in edit mode. */
    method HandleAddTag()
      requires isEditing
      modifies this`tags, this`isEditing, this`inputValue
      ensures !isEditing
      ensures State() == AddTag(old(State()))
      ensures State() == Step(old(State()), Blur)
      ensures TagsLimpios(old(tags)) ==> TagsLimpios(tags)
    {
      ghost var s := State();
      assert s.tags == tags && s.inputValue == inputValue;
      var t := Trim(inputValue);
      assert t == Trim(s.inputValue);
      if t != "" {
        tags := tags + [t];
        inputValue := "";
        assert tags == s.tags + [Trim(s.inputValue)] && inputValue == "";
      } else {
        assert tags == s.tags && inputValue == s.inputValue;
      }
      isEditing := false;
      assert Step(s, Blur) == AddTag(s);
    }

    /** `handleKeyDown(e)` for the key `key` pressed in the input, which exists only in edit mode. */
    method HandleKeyDown(key: string)
      requires isEditing
      modifies this`tags, this`isEditing, this`inputValue
      ensures State() == KeyDownStep(old(State()), key)
      ensures State() == Step(old(State()), KeyDown(key))
      ensures key == "Escape" ==> tags == old(tags) && !isEditing && inputValue == ""
      ensures key != "Enter" && key != "Escape" ==> State() == old(State())
      ensures TagsLimpios(old(tags)) ==> TagsLimpios(tags)
    {
      if key == "Enter" {
        HandleAddTag();
      } else if key == "Escape" {
        isEditing := false;
        inputValue := "";
      }
    }

    /** `removeTag(i)`. */
    method RemoveTag(i: int)
      modifies this`tags
      ensures tags == SinIndice(old(tags), i)
      ensures State() == Step(old(State()), ClickQuitar(i))
      ensures 0 <= i < |old(tags)| ==> tags == old(tags)[..i] + old(tags)[i + 1..]
      ensures TagsLimpios(old(tags)) ==> TagsLimpios(tags)
    {
      if TagsLimpios(tags) {
        SinIndiceKeepsLimpios(tags, i);
      }
      tags := SinIndice(tags, i);
    }
  }
}
