// The communication-context text area: suggestion buttons that append a
// bullet line, Enter and Shift+Enter shortcuts, and the suggestions toggle.
// The component is controlled, so each handler yields the value passed to
// `onChange`, or nothing when it does not call it.
module ContextInput {
  import opened Wrappers
  import opened Text

  /** "• ". */
  const Bullet: String := "\U{2022} "

  const Suggestions: seq<String> := [
    "Previous communication history",
    "Customer preferences",
    "Budget constraints",
    "Timeline requirements",
    "Special requirements",
    "Competitor information",
    "Market conditions",
    "Technical specifications",
    "Formal business communication"
  ]

  /** `handleSuggestionClick`: a bullet line for the suggestion, after a
      line break when there is text already. The old text is kept as a
      prefix and the suggestion ends the new text. */
  function SuggestionClick(value: String, suggestion: String): (r: String)
    ensures value == "" ==> r == Bullet + suggestion + "\n"
    ensures value != "" ==> r == value + "\n" + Bullet + suggestion + "\n"
    ensures value <= r
    ensures IsSuffix(Bullet + suggestion + "\n", r)
  {
    if value != "" then value + "\n" + Bullet + suggestion + "\n" else Bullet + suggestion + "\n"
  }

  /** `handleKeyDown`: Enter starts a new line, Shift+Enter a new bullet;
      any other key does not call `onChange`. */
  function KeyDown(value: String, key: String, shiftKey: bool): (r: Option<String>)
    ensures r.Some? <==> key == "Enter"
    ensures r.Some? ==> value <= r.value && r.value[|value|..] == if shiftKey then "\n" + Bullet else "\n"
  {
    if key != "Enter" then None
    else if shiftKey then Some(value + "\n" + Bullet)
    else Some(value + "\n")
  }

  /** Clicking every suggestion in turn, from an empty value, lists each
      one on its own bullet line. */
  lemma {:induction false} ClicksListSuggestions(ss: seq<String>)
    ensures ClickAll("", ss) == Bullets(ss)
    decreases |ss|
  {
    if |ss| > 0 {
      var init := ss[..|ss| - 1];
      ClicksListSuggestions(init);
    }
  }

  /** The text after clicking each of `ss` in order. */
  function ClickAll(value: String, ss: seq<String>): String
    decreases |ss|
  {
    if |ss| == 0 then value else SuggestionClick(ClickAll(value, ss[..|ss| - 1]), ss[|ss| - 1])
  }

  /** The expected text: the bullet lines joined by blank-line gaps. */
  function Bullets(ss: seq<String>): String
    decreases |ss|
  {
    if |ss| == 0 then ""
    else if |ss| == 1 then Bullet + ss[0] + "\n"
    else Bullets(ss[..|ss| - 1]) + "\n" + Bullet + ss[|ss| - 1] + "\n"
  }

  class SuggestionsPanel {
    var showSuggestions: bool

    constructor()
      ensures !showSuggestions
    {
      showSuggestions := false;
    }

    /** The toggle flips visibility on each click, and its caption changes
        with it. */
    method Toggle()
      modifies this
      ensures showSuggestions == !old(showSuggestions)
      ensures ToggleLabel() != old(ToggleLabel())
    {
      showSuggestions := !showSuggestions;
    }

    function ToggleLabel(): String
      reads this
    {
      if showSuggestions then "Hide Suggestions" else "Show Suggestions"
    }
  }
}
