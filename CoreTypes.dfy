/**
 * The application's value types: speech-to-text results and their
 * confidence predicates, clipboard contents and items (tags, pinning,
 * access counting), and hotkeys with their printed form and parser.
 */
module CoreTypes {
  import opened Common

  // ---------------------------------------------------------------------
  // Speech-to-text results
  // ---------------------------------------------------------------------

  /** `STTResult`; the timestamp is a parameter of the constructor. */
  datatype SttResult = SttResult(
    text: string, confidence: real, language: Option<string>, timestamp: nat,
    processing_time_ms: nat, model: string, backend: string)

  /** `STTResult::new`: no language and no processing time yet. */
  function NewSttResult(text: string, confidence: real, model: string, backend: string, now: nat): (r: SttResult)
    ensures r.text == text && r.confidence == confidence && r.model == model && r.backend == backend
    ensures r.language == None && r.processing_time_ms == 0 && r.timestamp == now
  {
    SttResult(text, confidence, None, now, 0, model, backend)
  }

  /** `with_language` sets the language and nothing else. */
  function WithLanguage(r: SttResult, language: string): (r': SttResult)
    ensures r' == r.(language := Some(language))
  {
    r.(language := Some(language))
  }

  /** `with_processing_time` sets the processing time and nothing else. */
  function WithProcessingTime(r: SttResult, time_ms: nat): (r': SttResult)
    ensures r' == r.(processing_time_ms := time_ms)
  {
    r.(processing_time_ms := time_ms)
  }

  predicate IsHighConfidence(r: SttResult) { r.confidence >= 0.8 }

  predicate IsLowConfidence(r: SttResult) { r.confidence < 0.6 }

  /** No result is both high and low confidence; the two thresholds leave a middle band. */
  lemma ConfidenceBands(r: SttResult)
    ensures !(IsHighConfidence(r) && IsLowConfidence(r))
    ensures 0.6 <= r.confidence < 0.8 <==> !IsHighConfidence(r) && !IsLowConfidence(r)
  {
  }

  /** `PartialSTTResult`. */
  datatype PartialSttResult = PartialSttResult(text: string, confidence: real, is_final: bool, timestamp: nat)

  /** `mark_final` sets the final flag and nothing else. */
  function MarkFinal(p: PartialSttResult): (p': PartialSttResult)
    ensures p'.is_final && p' == p.(is_final := true)
  {
    p.(is_final := true)
  }

  // ---------------------------------------------------------------------
  // Clipboard contents
  // ---------------------------------------------------------------------

  datatype ImageData = ImageData(format: string, width: nat, height: nat, data: seq<bv8>)

  /** `ClipboardContent`: the optional representations and the custom formats. */
  datatype ClipboardContent = ClipboardContent(
    text: Option<string>, html: Option<string>, rtf: Option<string>, image: Option<ImageData>,
    files: Option<seq<string>>, custom: map<string, seq<bv8>>)

  /** Every representation but the text is absent. */
  predicate NoOtherFormats(c: ClipboardContent)
  {
    c.html.None? && c.rtf.None? && c.image.None? && c.files.None? && |c.custom| == 0
  }

  predicate IsTextOnly(c: ClipboardContent) { c.text.Some? && NoOtherFormats(c) }

  predicate IsEmpty(c: ClipboardContent) { c.text.None? && NoOtherFormats(c) }

  /** `ClipboardContent::new_text`. */
  function NewText(text: string): (c: ClipboardContent)
    ensures IsTextOnly(c) && !IsEmpty(c)
    ensures GetText(c) == Some(text)
  {
    ClipboardContent(Some(text), None, None, None, None, map[])
  }

  function GetText(c: ClipboardContent): Option<string> { c.text }

  /** Text-only and empty exclude each other: they disagree on the text. */
  lemma TextOnlyNotEmpty(c: ClipboardContent)
    ensures !(IsTextOnly(c) && IsEmpty(c))
    ensures NoOtherFormats(c) ==> IsTextOnly(c) || IsEmpty(c)
  {
  }

  /** `ClipboardSource`. */
  datatype ClipboardSource =
    | Stt(stt_result: SttResult)
    | ManualSource
    | Import(file_path: string)
    | Sync(device_id: string)
    | Other(name: string)

  datatype AppContext = AppContext(
    name: string, pid: Option<nat>, window_title: Option<string>, bundle_id: Option<string>,
    executable_path: Option<string>)

  // ---------------------------------------------------------------------
  // Tags
  // ---------------------------------------------------------------------

  /** `add_tag` on the tag list: pushed only when not already there. */
  function WithTag(tags: seq<string>, tag: string): (r: seq<string>)
    ensures tag in r
    ensures tag in tags ==> r == tags
    ensures tag !in tags ==> r == tags + [tag]
  {
    if tag in tags then tags else tags + [tag]
  }

  /** `remove_tag` on the tag list: `retain` of the tags that differ. */
  function WithoutTag(tags: seq<string>, tag: string): (r: seq<string>)
    ensures tag !in r
    ensures forall t :: t in r <==> t in tags && t != tag
    ensures |r| <= |tags|
  {
    if |tags| == 0 then []
    else if tags[0] == tag then WithoutTag(tags[1..], tag)
    else [tags[0]] + WithoutTag(tags[1..], tag)
  }

  /** Adding never creates a duplicate, and adding twice is adding once. */
  lemma {:induction false} WithTagNoDuplicates(tags: seq<string>, tag: string)
    requires NoDuplicates(tags)
    ensures NoDuplicates(WithTag(tags, tag))
    ensures WithTag(WithTag(tags, tag), tag) == WithTag(tags, tag)
  {
  }

  /** Removing keeps the other tags in their order, so a list without duplicates stays without. */
  lemma {:induction false} WithoutTagKeepsOrder(tags: seq<string>, tag: string)
    ensures Subseq(WithoutTag(tags, tag), tags)
    ensures NoDuplicates(tags) ==> NoDuplicates(WithoutTag(tags, tag))
    ensures tag !in tags ==> WithoutTag(tags, tag) == tags
    decreases |tags|
  {
    if |tags| > 0 {
      var tail := tags[1..];
      WithoutTagKeepsOrder(tail, tag);
      SubseqCons(tags[0], WithoutTag(tail, tag), tail);
      assert tags == [tags[0]] + tail;
      if NoDuplicates(tags) {
        assert NoDuplicates(tail);
        assert tags[0] !in tail;
        assert tags[0] !in WithoutTag(tail, tag);
      }
    }
  }

  // ---------------------------------------------------------------------
  // Clipboard items
  // ---------------------------------------------------------------------

  /**
   * `ClipboardItem`. The id and the clock are constructor parameters; the
   * size is left at zero, as the program leaves it to be calculated later.
   */
  class ClipboardItem {
    const id: nat
    var content: ClipboardContent
    var source: ClipboardSource
    const created_at: nat
    var accessed_at: nat
    var access_count: nat
    var tags: seq<string>
    var pinned: bool
    var app_context: Option<AppContext>
    var size_bytes: nat

    /** `ClipboardItem::new`: never accessed, unpinned, untagged. */
    constructor (content: ClipboardContent, source: ClipboardSource, id: nat, now: nat)
      ensures this.id == id && this.content == content && this.source == source
      ensures created_at == now && accessed_at == now
      ensures access_count == 0 && tags == [] && !pinned
      ensures app_context == None && size_bytes == 0
    {
      this.id := id;
      this.content := content;
      this.source := source;
      created_at := now;
      accessed_at := now;
      access_count := 0;
      tags := [];
      pinned := false;
      app_context := None;
      size_bytes := 0;
    }

    /** `mark_accessed`: stamps the access time and counts one more access. */
    method MarkAccessed(now: nat)
      modifies this
      ensures accessed_at == now && access_count == old(access_count) + 1
      ensures content == old(content) && source == old(source) && tags == old(tags)
      ensures pinned == old(pinned) && app_context == old(app_context) && size_bytes == old(size_bytes)
    {
      accessed_at := now;
      access_count := access_count + 1;
    }

    method AddTag(tag: string)
      modifies this
      ensures tags == WithTag(old(tags), tag)
      ensures content == old(content) && source == old(source) && accessed_at == old(accessed_at)
      ensures access_count == old(access_count) && pinned == old(pinned)
      ensures app_context == old(app_context) && size_bytes == old(size_bytes)
    {
      if tag !in tags {
        tags := tags + [tag];
      }
    }

    /** `remove_tag`, written as the program's `retain` loop over the list. */
    method RemoveTag(tag: string)
      modifies this
      ensures tags == WithoutTag(old(tags), tag)
      ensures content == old(content) && source == old(source) && accessed_at == old(accessed_at)
      ensures access_count == old(access_count) && pinned == old(pinned)
      ensures app_context == old(app_context) && size_bytes == old(size_bytes)
    {
      var kept: seq<string> := [];
      var i := |tags|;
      while i > 0
        invariant 0 <= i <= |tags|
        invariant kept == WithoutTag(tags[i..], tag)
      {
        i := i - 1;
        assert tags[i..][1..] == tags[i + 1..];
        if tags[i] != tag {
          kept := [tags[i]] + kept;
        }
      }
      assert tags[0..] == tags;
      tags := kept;
    }

    function HasTag(tag: string): bool
      reads this
    {
      tag in tags
    }

    /** `toggle_pinned`. */
    method TogglePinned()
      modifies this
      ensures pinned == !old(pinned)
      ensures content == old(content) && source == old(source) && accessed_at == old(accessed_at)
      ensures access_count == old(access_count) && tags == old(tags)
      ensures app_context == old(app_context) && size_bytes == old(size_bytes)
    {
      pinned := !pinned;
    }
  }

  /**
   * The item tests: a new item is unaccessed, unpinned and untagged; after
   * adding a tag twice it is there once, after removing it it is gone;
   * toggling the pin twice restores it.
   */
  method ClipboardItemScenario(now: nat) returns (count: nat, pinnedBefore: bool, pinnedAfter: bool,
                                                    tagsAfterAdd: seq<string>, hadAfterRemove: bool)
    ensures count == 0 && !pinnedBefore && !pinnedAfter
    ensures tagsAfterAdd == ["work"] && !hadAfterRemove
  {
    var content := NewText("Hello, World!");
    var source := Stt(NewSttResult("Hello, World!", 0.95, "base", "local", now));
    var item := new ClipboardItem(content, source, 0, now);
    count := item.access_count;
    pinnedBefore := item.pinned;
    item.AddTag("work");
    item.AddTag("work");
    tagsAfterAdd := item.tags;
    item.RemoveTag("work");
    hadAfterRemove := item.HasTag("work");
    item.TogglePinned();
    item.TogglePinned();
    pinnedAfter := item.pinned;
  }

  // ---------------------------------------------------------------------
  // Hotkeys
  // ---------------------------------------------------------------------

  datatype Hotkey = Hotkey(ctrl: bool, alt: bool, shift: bool, meta: bool, key: string)

  /** `Hotkey::new`: no modifier. */
  function NewHotkey(key: string): (h: Hotkey)
    ensures !h.ctrl && !h.alt && !h.shift && !h.meta && h.key == key
  {
    Hotkey(false, false, false, false, key)
  }

  /** The builders each set exactly their own flag. */
  function WithCtrl(h: Hotkey): (h': Hotkey) ensures h' == h.(ctrl := true) { h.(ctrl := true) }
  function WithAlt(h: Hotkey): (h': Hotkey) ensures h' == h.(alt := true) { h.(alt := true) }
  function WithShift(h: Hotkey): (h': Hotkey) ensures h' == h.(shift := true) { h.(shift := true) }
  function WithMeta(h: Hotkey): (h': Hotkey) ensures h' == h.(meta := true) { h.(meta := true) }

  /** The modifier names `Display` prints, in the order Ctrl, Alt, Shift, Meta. */
  function ModifierNames(h: Hotkey): (r: seq<string>)
    ensures |r| <= 4
    ensures forall k :: 0 <= k < |r| ==> r[k] in ["Ctrl", "Alt", "Shift", "Meta"]
  {
    (if h.ctrl then ["Ctrl"] else []) + (if h.alt then ["Alt"] else [])
    + (if h.shift then ["Shift"] else []) + (if h.meta then ["Meta"] else [])
  }

  /** `Display for Hotkey`: the modifier names, then the key, joined by '+'. */
  function HotkeyToString(h: Hotkey): string
  {
    Join(ModifierNames(h) + [h.key], "+")
  }

  /** Case-insensitive names of the four modifiers. */
  predicate KnownModifier(part: string)
  {
    ToLower(part) in ["ctrl", "alt", "shift", "meta"]
  }

  /** One modifier part applied to the hotkey being built. */
  function ApplyModifier(h: Hotkey, part: string): Hotkey
    requires KnownModifier(part)
  {
    var p := ToLower(part);
    if p == "ctrl" then h.(ctrl := true)
    else if p == "alt" then h.(alt := true)
    else if p == "shift" then h.(shift := true)
    else h.(meta := true)
  }

  /** Some part names the modifier `name` (compared case-insensitively). */
  predicate Names(parts: seq<string>, name: string)
  {
    exists k :: 0 <= k < |parts| && ToLower(parts[k]) == name
  }

  /**
   * The modifier loop of `from_string`: parts are applied in order, and the
   * first unknown one ends the parse with its error.
   */
  function ApplyModifiers(h: Hotkey, parts: seq<string>): Result<Hotkey, string>
    decreases |parts|
  {
    if |parts| == 0 then Ok(h)
    else if !KnownModifier(parts[0]) then Err("Unknown modifier: " + parts[0])
    else ApplyModifiers(ApplyModifier(h, parts[0]), parts[1..])
  }

  /** A modifier is named by a list exactly when by its head or its tail. */
  lemma NamesCons(parts: seq<string>, name: string)
    requires |parts| > 0
    ensures Names(parts, name) <==> ToLower(parts[0]) == name || Names(parts[1..], name)
  {
    if Names(parts[1..], name) {
      var k :| 0 <= k < |parts[1..]| && ToLower(parts[1..][k]) == name;
      assert parts[k + 1] == parts[1..][k];
    }
    if Names(parts, name) && ToLower(parts[0]) != name {
      var k :| 0 <= k < |parts| && ToLower(parts[k]) == name;
      assert parts[1..][k - 1] == parts[k];
    }
  }

  /**
   * Parsing the modifiers succeeds exactly when every part is a known
   * modifier; it then sets exactly the flags some part names and keeps the
   * key, and otherwise reports an unknown part.
   */
  lemma {:induction false} ApplyModifiersShape(h: Hotkey, parts: seq<string>)
    ensures ApplyModifiers(h, parts).Ok? <==> forall k :: 0 <= k < |parts| ==> KnownModifier(parts[k])
    ensures ApplyModifiers(h, parts).Ok? ==>
      (var v := ApplyModifiers(h, parts).value;
       && v.key == h.key
       && (v.ctrl <==> h.ctrl || Names(parts, "ctrl"))
       && (v.alt <==> h.alt || Names(parts, "alt"))
       && (v.shift <==> h.shift || Names(parts, "shift"))
       && (v.meta <==> h.meta || Names(parts, "meta")))
    ensures ApplyModifiers(h, parts).Err? ==>
      (exists k :: 0 <= k < |parts| && !KnownModifier(parts[k])
         && ApplyModifiers(h, parts).error == "Unknown modifier: " + parts[k])
    decreases |parts|
  {
    if |parts| > 0 && KnownModifier(parts[0]) {
      var tail := parts[1..];
      ApplyModifiersShape(ApplyModifier(h, parts[0]), tail);
      NamesCons(parts, "ctrl");
      NamesCons(parts, "alt");
      NamesCons(parts, "shift");
      NamesCons(parts, "meta");
      var r := ApplyModifiers(h, parts);
      if r.Err? {
        var k :| 0 <= k < |tail| && !KnownModifier(tail[k]) && r.error == "Unknown modifier: " + tail[k];
        assert parts[k + 1] == tail[k];
      }
      if forall k :: 0 <= k < |tail| ==> KnownModifier(tail[k]) {
        forall k | 0 <= k < |parts| ensures KnownModifier(parts[k]) {
          if k > 0 { assert parts[k] == tail[k - 1]; }
        }
      }
    }
  }

  /**
   * `Hotkey::from_string` as a value: the last '+'-separated piece is the
   * key, the earlier pieces are modifiers. Splitting always yields at least
   * one piece, so the program's empty-list error cannot occur.
   */
  function ParseHotkey(s: string): Result<Hotkey, string>
  {
    var parts := SplitChar(s, '+');
    ApplyModifiers(NewHotkey(parts[|parts| - 1]), parts[..|parts| - 1])
  }

  /** `Hotkey::from_string`, with the program's loop over the modifier pieces. */
  method FromString(s: string) returns (r: Result<Hotkey, string>)
    ensures r == ParseHotkey(s)
  {
    var parts := SplitChar(s, '+');
    var mods := parts[..|parts| - 1];
    var hotkey := NewHotkey(parts[|parts| - 1]);
    for i := 0 to |mods|
      invariant ApplyModifiers(hotkey, mods[i..]) == ParseHotkey(s)
    {
      assert mods[i..][1..] == mods[i + 1..];
      var part := ToLower(mods[i]);
      if part == "ctrl" {
        hotkey := hotkey.(ctrl := true);
      } else if part == "alt" {
        hotkey := hotkey.(alt := true);
      } else if part == "shift" {
        hotkey := hotkey.(shift := true);
      } else if part == "meta" {
        hotkey := hotkey.(meta := true);
      } else {
        return Err("Unknown modifier: " + mods[i]);
      }
    }
    r := Ok(hotkey);
  }

  /** The printed names of the modifiers parse back as those modifiers. */
  lemma ModifierNamesParse(h: Hotkey)
    ensures forall k :: 0 <= k < |ModifierNames(h)| ==> KnownModifier(ModifierNames(h)[k])
    ensures Names(ModifierNames(h), "ctrl") <==> h.ctrl
    ensures Names(ModifierNames(h), "alt") <==> h.alt
    ensures Names(ModifierNames(h), "shift") <==> h.shift
    ensures Names(ModifierNames(h), "meta") <==> h.meta
  {
    assert ToLower("Ctrl") == "ctrl" && ToLower("Alt") == "alt";
    assert ToLower("Shift") == "shift" && ToLower("Meta") == "meta";
    var m := ModifierNames(h);
    forall k | 0 <= k < |m| ensures ToLower(m[k]) in ["ctrl", "alt", "shift", "meta"] {
      assert m[k] in ["Ctrl", "Alt", "Shift", "Meta"];
    }
    if h.ctrl { assert m[0] == "Ctrl"; }
    if h.alt { assert m[if h.ctrl then 1 else 0] == "Alt"; }
    if h.shift { assert m[(if h.ctrl then 1 else 0) + (if h.alt then 1 else 0)] == "Shift"; }
    if h.meta { assert m[|m| - 1] == "Meta"; }
    forall k | 0 <= k < |m|
      ensures (ToLower(m[k]) == "ctrl" ==> h.ctrl) && (ToLower(m[k]) == "alt" ==> h.alt)
        && (ToLower(m[k]) == "shift" ==> h.shift) && (ToLower(m[k]) == "meta" ==> h.meta)
    {
      assert m[k] in ["Ctrl", "Alt", "Shift", "Meta"];
      if m[k] == "Ctrl" { assert h.ctrl; }
      if m[k] == "Alt" { assert h.alt; }
      if m[k] == "Shift" { assert h.shift; }
      if m[k] == "Meta" { assert h.meta; }
    }
  }

  /** Printing and parsing back gives the same hotkey, for any key without '+'. */
  lemma HotkeyRoundTrip(h: Hotkey)
    requires '+' !in h.key
    ensures ParseHotkey(HotkeyToString(h)) == Ok(h)
  {
    var m := ModifierNames(h);
    var parts := m + [h.key];
    forall k | 0 <= k < |parts| ensures '+' !in parts[k] {
      if k < |m| {
        assert parts[k] == m[k];
        assert m[k] in ["Ctrl", "Alt", "Shift", "Meta"];
      }
    }
    SplitCharJoin(parts, '+');
    assert SplitChar(HotkeyToString(h), '+') == parts;
    assert parts[..|parts| - 1] == m;
    ModifierNamesParse(h);
    ApplyModifiersShape(NewHotkey(h.key), m);
  }

  /** The hotkey test: Ctrl+Alt+S prints as "Ctrl+Alt+S" and parses back. */
  lemma CtrlAltSExample()
    ensures WithAlt(WithCtrl(NewHotkey("S"))) == Hotkey(true, true, false, false, "S")
    ensures HotkeyToString(Hotkey(true, true, false, false, "S")) == "Ctrl+Alt+S"
    ensures ParseHotkey("Ctrl+Alt+S") == Ok(Hotkey(true, true, false, false, "S"))
  {
    var h := Hotkey(true, true, false, false, "S");
    assert ModifierNames(h) == ["Ctrl", "Alt"];
    assert ModifierNames(h) + [h.key] == ["Ctrl", "Alt", "S"];
    assert Join(["Ctrl", "Alt", "S"], "+") == "Ctrl+Alt+S" by {
      assert ["Ctrl", "Alt", "S"][1..] == ["Alt", "S"];
      assert ["Alt", "S"][1..] == ["S"];
    }
    HotkeyRoundTrip(h);
  }
}
