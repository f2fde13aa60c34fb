/**
 * The dropdown (components/ui/custom-select.js): keyboard navigation with wrap-around,
 * the open/closed state, and the label shown for the selected value, where a label
 * written as "key( )" stands for the translation of "key".
 */
module CustomSelect {
  import opened Wrappers
  import opened JsStrings

  /** An option label: a text, or a function of the translation function. */
  datatype Label = Plain(text: string) | Computed(render: (string -> string) -> string)

  datatype SelectOption = SelectOption(value: string, caption: Label)

  /** The number of whitespace characters `s` starts with. */
  function LeadingSpaces(s: string): (n: nat)
    ensures n <= |s|
    ensures forall i :: 0 <= i < n ==> IsWhitespace(s[i])
    ensures n < |s| ==> !IsWhitespace(s[n])
  {
    if |s| > 0 && IsWhitespace(s[0]) then 1 + LeadingSpaces(s[1..]) else 0
  }

  /** The length of a match of `\s*\(\s*\)` at the start of `s`, if there is one. */
  function MarkerAt(s: string): (m: Option<nat>)
    ensures m.Some? ==> 2 <= m.value <= |s| && s[m.value - 1] == ')'
  {
    var a := LeadingSpaces(s);
    if a < |s| && s[a] == '(' then
      var b := LeadingSpaces(s[a + 1..]);
      if a + 1 + b < |s| && s[a + 1 + b] == ')' then Some(a + 2 + b) else None
    else None
  }

  /** `s.replace(/\s*\(\s*\)/g, "")`: every leftmost match removed, scanning left to right. */
  function StripParens(s: string): (r: string)
    ensures |r| <= |s|
    decreases |s|
  {
    if s == [] then []
    else match MarkerAt(s)
      case Some(n) => StripParens(s[n..])
      case None => [s[0]] + StripParens(s[1..])
  }

  /** Without an opening parenthesis there is nothing to remove. */
  lemma {:induction false} StripParensWithoutParens(s: string)
    requires '(' !in s
    ensures StripParens(s) == s
    decreases |s|
  {
    if s != [] {
      assert MarkerAt(s).None? by {
        var a := LeadingSpaces(s);
        if a < |s| {
          assert s[a] in s;
        }
      }
      assert forall c :: c in s[1..] ==> c in s;
      StripParensWithoutParens(s[1..]);
      assert [s[0]] + s[1..] == s;
    }
  }

  /** The marker "( )" after a translation key is removed, leaving the key. */
  lemma {:induction false} StripParensOfKey(key: string)
    requires '(' !in key
    requires |key| > 0 ==> !IsWhitespace(key[|key| - 1])
    ensures StripParens(key + "( )") == key
    decreases |key|
  {
    if key == [] {
      assert key + "( )" == "( )";
      StripMarkerAlone();
    } else {
      var rest := key[1..];
      assert key == [key[0]] + rest;
      StripParensKeyStep(key);
      StripParensOfKey(rest);
    }
  }

  /** Before the marker, the key is kept one character at a time. */
  lemma StripParensKeyStep(key: string)
    requires '(' !in key && |key| > 0 && !IsWhitespace(key[|key| - 1])
    ensures StripParens(key + "( )") == [key[0]] + StripParens(key[1..] + "( )")
  {
    var s := key + "( )";
    NoMarkerInsideKey(key);
    StripParensKeeps(s);
    TailOfConcat(key, "( )");
  }

  lemma TailOfConcat(a: string, b: string)
    requires |a| > 0
    ensures (a + b)[0] == a[0] && (a + b)[1..] == a[1..] + b
  {
  }

  /** The marker alone is removed entirely. */
  lemma StripMarkerAlone()
    ensures StripParens("( )") == ""
  {
    assert MarkerAt("( )") == Some(3);
    assert "( )"[3..] == [];
  }

  /** Where no match starts, the first character is kept. */
  lemma StripParensKeeps(s: string)
    requires s != [] && MarkerAt(s).None?
    ensures StripParens(s) == [s[0]] + StripParens(s[1..])
  {
  }

  /** No match starts inside a key that has no '(' and does not end in whitespace. */
  lemma NoMarkerInsideKey(key: string)
    requires '(' !in key && |key| > 0 && !IsWhitespace(key[|key| - 1])
    ensures MarkerAt(key + "( )").None?
  {
    var a := LeadingSpaces(key + "( )");
    KeySpacesStop(key, "( )");
    assert (key + "( )")[a] == key[a];
    assert key[a] in key;
  }

  /** The whitespace run at the start of a non-empty key ending in a non-space stops inside the key. */
  lemma {:induction false} KeySpacesStop(key: string, suffix: string)
    requires |key| > 0 && !IsWhitespace(key[|key| - 1])
    ensures LeadingSpaces(key + suffix) < |key|
    ensures LeadingSpaces(key + suffix) == LeadingSpaces(key)
    decreases |key|
  {
    var s := key + suffix;
    assert s[0] == key[0];
    if |key| > 1 && IsWhitespace(key[0]) {
      assert s[1..] == key[1..] + suffix;
      KeySpacesStop(key[1..], suffix);
    }
  }

  /** `typeof label === "string" && label.includes("(") && label.includes(")")`. */
  predicate IsKeyLabel(s: string) {
    '(' in s && ')' in s
  }

  /** `processLabel`: a function label is called with `t`; a "key( )" label is translated; any other text is shown as is. */
  function ProcessLabel(l: Label, t: string -> string): (shown: string)
    ensures l.Computed? ==> shown == l.render(t)
    ensures l.Plain? && IsKeyLabel(l.text) ==> shown == t(StripParens(l.text))
    ensures l.Plain? && !IsKeyLabel(l.text) ==> shown == l.text
  {
    match l
    case Computed(render) => render(t)
    case Plain(s) => if IsKeyLabel(s) then t(StripParens(s)) else s
  }

  /** A label "key( )" shows the translation of "key". */
  lemma KeyLabelIsTranslated(key: string, t: string -> string)
    requires '(' !in key && (|key| > 0 ==> !IsWhitespace(key[|key| - 1]))
    ensures ProcessLabel(Plain(key + "( )"), t) == t(key)
  {
    StripParensOfKey(key);
    assert (key + "( )")[|key|] == '(' && (key + "( )")[|key| + 2] == ')';
  }

  /** The placeholder, processed like a text label (a placeholder is never called). */
  function ProcessPlaceholder(placeholder: string, t: string -> string): (shown: string)
    ensures shown == ProcessLabel(Plain(placeholder), t)
  {
    if IsKeyLabel(placeholder) then t(StripParens(placeholder)) else placeholder
  }

  /** `options.findIndex(opt => opt.value === value)`. */
  function FindIndex(options: seq<SelectOption>, value: string): (k: int)
    ensures -1 <= k < |options|
    ensures k == -1 <==> forall i :: 0 <= i < |options| ==> options[i].value != value
    ensures k >= 0 ==> options[k].value == value && forall i :: 0 <= i < k ==> options[i].value != value
  {
    if options == [] then -1
    else if options[0].value == value then 0
    else
      var k := FindIndex(options[1..], value);
      if k == -1 then -1 else k + 1
  }

  /** The label shown: the matching option's when the value is non-empty and listed, else the placeholder. */
  function SelectedLabel(options: seq<SelectOption>, value: string, placeholder: string,
                         t: string -> string): (shown: string)
    ensures value != "" && FindIndex(options, value) >= 0 ==>
              shown == ProcessLabel(options[FindIndex(options, value)].caption, t)
    ensures (value == "" || FindIndex(options, value) == -1) ==> shown == ProcessPlaceholder(placeholder, t)
  {
    var k := FindIndex(options, value);
    if value != "" && k >= 0 then ProcessLabel(options[k].caption, t) else ProcessPlaceholder(placeholder, t)
  }

  /** The index `navigateOptions` moves to: below 0 wraps to the last, past the end to the first. */
  function Wrap(index: int, n: nat): (k: int)
    requires n > 0
    ensures 0 <= k < n || (index >= n && k == 0)
    ensures index < 0 ==> k == n - 1
    ensures 0 <= index < n ==> k == index
    ensures index >= n ==> k == 0
  {
    var k := if index < 0 then n - 1 else index;
    if k >= n then 0 else k
  }

  /** The value `navigateOptions(direction)` reports, if any. */
  function NavigationTarget(options: seq<SelectOption>, value: string, direction: int): Option<string> {
    if |options| == 0 then None
    else Some(options[Wrap(FindIndex(options, value) + direction, |options|)].value)
  }

  /** `navigateOptions(direction)`: nothing to report without options. */
  method Navigate(options: seq<SelectOption>, value: string, direction: int) returns (report: Option<string>)
    ensures report == NavigationTarget(options, value, direction)
  {
    if |options| == 0 {
      return None;
    }
    var currentIndex := FindIndex(options, value);
    var newIndex := currentIndex + direction;
    if newIndex < 0 {
      newIndex := |options| - 1;
    }
    if newIndex >= |options| {
      newIndex := 0;
    }
    report := Some(options[newIndex].value);
  }

  /** With no option selected, down picks the first option and up the last. */
  lemma FromNothingSelected(options: seq<SelectOption>, value: string)
    requires |options| > 0 && FindIndex(options, value) == -1
    ensures NavigationTarget(options, value, 1) == Some(options[0].value)
    ensures NavigationTarget(options, value, -1) == Some(options[|options| - 1].value)
  {
  }

  /** No two options share a value. */
  predicate DistinctValues(options: seq<SelectOption>) {
    forall i, j :: 0 <= i < j < |options| ==> options[i].value != options[j].value
  }

  /** With distinct values, an option's value is found at its own index. */
  lemma FindDistinct(options: seq<SelectOption>, i: nat)
    requires DistinctValues(options) && i < |options|
    ensures FindIndex(options, options[i].value) == i
  {
    var k := FindIndex(options, options[i].value);
    assert k >= 0;
    assert !(k < i) && !(i < k);
  }

  /** From the last option down goes to the first, and from the first up goes to the last. */
  lemma WrapAround(options: seq<SelectOption>)
    requires |options| > 1 && DistinctValues(options)
    ensures NavigationTarget(options, options[|options| - 1].value, 1) == Some(options[0].value)
    ensures NavigationTarget(options, options[0].value, -1) == Some(options[|options| - 1].value)
  {
    FindDistinct(options, |options| - 1);
    FindDistinct(options, 0);
  }

  /** With distinct values, a step down and a step up return to the listed value. */
  lemma DownThenUp(options: seq<SelectOption>, value: string)
    requires DistinctValues(options)
    requires FindIndex(options, value) >= 0
    ensures var down := NavigationTarget(options, value, 1);
            down.Some? && NavigationTarget(options, down.value, -1) == Some(value)
  {
    var n := |options|;
    var k := FindIndex(options, value);
    var next := Wrap(k + 1, n);
    assert NavigationTarget(options, value, 1) == Some(options[next].value);
    FindDistinct(options, next);
    assert Wrap(next - 1, n) == k;
  }

  /** The dropdown's open state. */
  class Dropdown {
    var isOpen: bool
    var selectedLabel: string

    constructor()
      ensures !isOpen && selectedLabel == ""
    {
      isOpen := false;
      selectedLabel := "";
    }

    /** The label effect, run when the value, options, placeholder or `t` change. */
    method RefreshLabel(options: seq<SelectOption>, value: string, placeholder: string, t: string -> string)
      modifies this
      ensures selectedLabel == SelectedLabel(options, value, placeholder, t) && isOpen == old(isOpen)
    {
      var k := FindIndex(options, value);
      if value != "" && k >= 0 {
        selectedLabel := ProcessLabel(options[k].caption, t);
      } else {
        selectedLabel := ProcessPlaceholder(placeholder, t);
      }
    }

    /** `toggleDropdown`. */
    method Toggle()
      modifies this
      ensures isOpen == !old(isOpen) && selectedLabel == old(selectedLabel)
    {
      isOpen := !isOpen;
    }

    /** `handleSelect(option)`: reports the option's value and closes. */
    method Select(option: SelectOption) returns (report: string)
      modifies this
      ensures report == option.value && !isOpen && selectedLabel == old(selectedLabel)
    {
      report := option.value;
      isOpen := false;
    }

    /**
     * `handleKeyDown`: Enter and space toggle; the arrows move only while open; Escape
     * closes. `report` is the value passed to `onChange`, if any.
     */
    method KeyDown(key: string, options: seq<SelectOption>, value: string) returns (report: Option<string>)
      modifies this
      ensures selectedLabel == old(selectedLabel)
      ensures key == "Enter" || key == " " ==> isOpen == !old(isOpen) && report.None?
      ensures key == "ArrowDown" ==>
                isOpen == old(isOpen) && report == (if old(isOpen) then NavigationTarget(options, value, 1) else None)
      ensures key == "ArrowUp" ==>
                isOpen == old(isOpen) && report == (if old(isOpen) then NavigationTarget(options, value, -1) else None)
      ensures key == "Escape" ==> !isOpen && report.None?
      ensures key !in {"Enter", " ", "ArrowDown", "ArrowUp", "Escape"} ==> isOpen == old(isOpen) && report.None?
    {
      report := None;
      if key == "Enter" || key == " " {
        Toggle();
      } else if key == "ArrowDown" && isOpen {
        report := Navigate(options, value, 1);
      } else if key == "ArrowUp" && isOpen {
        report := Navigate(options, value, -1);
      } else if key == "Escape" && isOpen {
        isOpen := false;
      }
    }

    /** The document listeners: a mouse press outside the dropdown, or Escape anywhere, closes it. */
    method DocumentEvent(escapePressed: bool, pressOutside: bool)
      modifies this
      ensures escapePressed || pressOutside ==> !isOpen
      ensures !(escapePressed || pressOutside) ==> isOpen == old(isOpen)
      ensures selectedLabel == old(selectedLabel)
    {
      if escapePressed || pressOutside {
        isOpen := false;
      }
    }
  }

  /** The example the component itself gives: "sortOptions.newest( )" shows the translation of "sortOptions.newest". */
  lemma NewestOptionLabel(t: string -> string)
    ensures ProcessLabel(Plain("sortOptions.newest( )"), t) == t("sortOptions.newest")
  {
    assert "sortOptions.newest( )" == "sortOptions.newest" + "( )";
    assert '(' !in "sortOptions.newest";
    KeyLabelIsTranslated("sortOptions.newest", t);
  }
}
