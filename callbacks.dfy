/**
 * The two interface callbacks that compute new CSS class names: the
 * collapse toggle of the settings column, and the magnifying buttons that
 * expand one graph and hide the others, or reset them all. The id of the
 * button that fired is a parameter here.
 */
module DemoCallbacks {
  import opened Wrappers
  import opened Text

  const COLLAPSED: string := "collapsed"

  // toggle_left_column

  /** `s.split(" ") if s else []`: the class tokens of a class string. */
  function Tokens(s: string): (tokens: seq<string>)
    ensures s == "" ==> tokens == []
    ensures s != "" ==> Join(tokens, " ") == s
  {
    if s != "" then
      JoinSplit(s, " ");
      Split(s, " ")
    else
      []
  }

  /** The position of the first `x` in `xs` (Python's `xs.index(x)`). */
  function FirstIndex(xs: seq<string>, x: string): (i: nat)
    requires x in xs
    ensures i < |xs| && xs[i] == x && x !in xs[..i]
  {
    if xs[0] == x then
      0
    else
      var j := FirstIndex(xs[1..], x);
      assert xs[..j + 1] == [xs[0]] + xs[1..][..j];
      j + 1
  }

  /** `xs.remove(x)`: the list without its first `x`; one `x` fewer, and nothing else changes. */
  function RemoveFirst(xs: seq<string>, x: string): (ys: seq<string>)
    requires x in xs
    ensures multiset(ys) == multiset(xs) - multiset{x}
    ensures ys == xs[..FirstIndex(xs, x)] + xs[FirstIndex(xs, x) + 1..]
  {
    var i := FirstIndex(xs, x);
    assert xs == xs[..i] + [x] + xs[i + 1..];
    xs[..i] + xs[i + 1..]
  }

  /**
   * `toggle_left_column(collapse_trigger, to_collapse_class)`; the click
   * count is not used.  Without a `"collapsed"` token the result has one
   * appended; with one, the result's tokens are the others (unless the
   * result is empty, whose token list is `[]` whatever was left).
   */
  function ToggleCollapsed(cls: string): (next: string)
    ensures COLLAPSED !in Tokens(cls) ==> Tokens(next) == Tokens(cls) + [COLLAPSED]
    ensures COLLAPSED in Tokens(cls) && next != "" ==> Tokens(next) == RemoveFirst(Tokens(cls), COLLAPSED)
  {
    var classes := Tokens(cls);
    if COLLAPSED in classes then
      var rest := RemoveFirst(classes, COLLAPSED);
      if rest != [] then
        RestRejoins(cls);
        Join(rest, " ")
      else
        Join(rest, " ")
    else if cls != "" then
      TokensAppended(cls);
      cls + " " + COLLAPSED
    else
      CollapsedToken();
      COLLAPSED
  }

  /** The tokens left after removing the first `"collapsed"`, joined by spaces, split back into themselves. */
  lemma RestRejoins(cls: string)
    requires COLLAPSED in Tokens(cls) && RemoveFirst(Tokens(cls), COLLAPSED) != []
    ensures Split(Join(RemoveFirst(Tokens(cls), COLLAPSED), " "), " ") == RemoveFirst(Tokens(cls), COLLAPSED)
  {
    var tokens := Tokens(cls);
    var i := FirstIndex(tokens, COLLAPSED);
    var rest := RemoveFirst(tokens, COLLAPSED);
    SplitPiecesFree(cls, " ");
    forall k | 0 <= k < |rest| ensures !Contains(rest[k], " ") {
      assert rest[k] == if k < i then tokens[k] else tokens[k + 1];
    }
    SplitJoin(rest, " ");
  }

  /** `"collapsed"` is a single token. */
  lemma CollapsedToken()
    ensures Tokens(COLLAPSED) == [COLLAPSED]
  {
    CharNotContained(COLLAPSED, ' ');
    SplitNoSep(COLLAPSED, " ");
  }

  /** Appending `" collapsed"` appends the token `"collapsed"`. */
  lemma TokensAppended(cls: string)
    requires cls != ""
    ensures Tokens(cls + " " + COLLAPSED) == Tokens(cls) + [COLLAPSED]
  {
    CollapsedToken();
    SplitConcat(cls, " ", COLLAPSED);
  }

  /** Without a `"collapsed"` token, the toggle appends one: `""` becomes `"collapsed"`, `s` becomes `s + " collapsed"`. */
  lemma ToggleAdds(cls: string)
    requires COLLAPSED !in Tokens(cls)
    ensures ToggleCollapsed(cls) == if cls == "" then COLLAPSED else cls + " " + COLLAPSED
    ensures COLLAPSED in Tokens(ToggleCollapsed(cls))
  {
    CollapsedToken();
    if cls != "" {
      TokensAppended(cls);
    }
  }

  /**
   * With a `"collapsed"` token, the toggle removes the first one only and
   * joins the remaining tokens with single spaces, so that splitting the
   * result gives those tokens back.
   */
  lemma ToggleRemovesFirst(cls: string)
    requires COLLAPSED in Tokens(cls)
    ensures var rest := RemoveFirst(Tokens(cls), COLLAPSED);
      && ToggleCollapsed(cls) == Join(rest, " ")
      && (rest != [] ==> Split(ToggleCollapsed(cls), " ") == rest)
  {
    if RemoveFirst(Tokens(cls), COLLAPSED) != [] {
      RestRejoins(cls);
    }
  }

  /** The first `x` of `xs + [x]` is the added one when `xs` has none. */
  lemma RemoveFirstAppended(xs: seq<string>, x: string)
    requires x !in xs
    ensures RemoveFirst(xs + [x], x) == xs
  {
    var ys := xs + [x];
    assert ys[..|xs|] == xs;
    assert forall k :: 0 <= k < |xs| ==> ys[k] == xs[k];
  }

  /** Toggling twice restores a class string that had no `"collapsed"` token. */
  lemma ToggleTwice(cls: string)
    requires COLLAPSED !in Tokens(cls)
    ensures ToggleCollapsed(ToggleCollapsed(cls)) == cls
  {
    ToggleAdds(cls);
    if cls == "" {
      CollapsedToken();
      RemoveFirstAppended([], COLLAPSED);
    } else {
      TokensAppended(cls);
      RemoveFirstAppended(Tokens(cls), COLLAPSED);
    }
  }

  // magnify_graph

  const EXPANDED: string := "graph-element-expanded"
  const GRAPH: string := "graph-element"
  const HIDDEN: string := "display-none"
  const MAGNIFYING: string := "magnifying"
  const MAGNIFYING_MINUS: string := "magnifying minus"

  /** Why a callback could not complete. */
  datatype CallbackError = IndexError

  /** The class names of every graph and of every magnifying button. */
  datatype Classes = Classes(graphs: seq<string>, buttons: seq<string>)

  /** Python's `xs[i]` position: `i` counted from the end when negative, `None` for `IndexError`. */
  function PyIndex(i: int, n: nat): (p: Option<nat>)
    ensures p.Some? <==> -(n as int) <= i < n
    ensures p.Some? ==> p.value < n && (p.value == i || p.value == i + n)
  {
    if 0 <= i < n then Some(i)
    else if -(n as int) <= i < 0 then Some(i + n)
    else None
  }

  /** `[c] * n`. */
  function Repeat(c: string, n: nat): (xs: seq<string>)
    ensures |xs| == n && forall j :: 0 <= j < n ==> xs[j] == c
  {
    seq(n, _ => c)
  }

  /** `magnify_graph(...)` when the button with index `triggered` fired. */
  function MagnifyGraph(triggered: int, graphClasses: seq<string>, magnifyingClasses: seq<string>)
    : (result: Result<Classes, CallbackError>)
    ensures result.Success? ==>
      |result.value.graphs| == |graphClasses| && |result.value.buttons| == |magnifyingClasses|
  {
    match PyIndex(triggered, |graphClasses|)
    case None => Failure(IndexError)
    case Some(g) =>
      if Contains(graphClasses[g], EXPANDED) then
        Success(Classes(Repeat(GRAPH, |graphClasses|), Repeat(MAGNIFYING, |magnifyingClasses|)))
      else
        match PyIndex(triggered, |magnifyingClasses|)
        case None => Failure(IndexError)
        case Some(m) =>
          Success(Classes(Repeat(HIDDEN, |graphClasses|)[g := EXPANDED],
                          Repeat(HIDDEN, |magnifyingClasses|)[m := MAGNIFYING_MINUS]))
  }

  /** An expanded graph's button resets every graph and every button. */
  lemma MagnifyResets(triggered: int, graphClasses: seq<string>, magnifyingClasses: seq<string>)
    requires PyIndex(triggered, |graphClasses|).Some?
    requires Contains(graphClasses[PyIndex(triggered, |graphClasses|).value], EXPANDED)
    ensures var result := MagnifyGraph(triggered, graphClasses, magnifyingClasses);
      && result.Success?
      && (forall j :: 0 <= j < |graphClasses| ==> result.value.graphs[j] == GRAPH)
      && (forall j :: 0 <= j < |magnifyingClasses| ==> result.value.buttons[j] == MAGNIFYING)
  {
  }

  /**
   * Any other graph's button expands that graph and hides all the others,
   * with its own button showing the minus sign; an index outside either list
   * is an `IndexError`.
   */
  lemma MagnifyExpands(triggered: int, graphClasses: seq<string>, magnifyingClasses: seq<string>)
    requires PyIndex(triggered, |graphClasses|).Some?
    requires !Contains(graphClasses[PyIndex(triggered, |graphClasses|).value], EXPANDED)
    ensures var result := MagnifyGraph(triggered, graphClasses, magnifyingClasses);
      && (result.Success? <==> PyIndex(triggered, |magnifyingClasses|).Some?)
      && (result.Success? ==>
            && (forall j :: 0 <= j < |graphClasses| ==>
                  result.value.graphs[j] == if j == PyIndex(triggered, |graphClasses|).value then EXPANDED else HIDDEN)
            && (forall j :: 0 <= j < |magnifyingClasses| ==>
                  result.value.buttons[j] == if j == PyIndex(triggered, |magnifyingClasses|).value then MAGNIFYING_MINUS else HIDDEN))
  {
  }

  /** An index outside the graph list is an `IndexError`. */
  lemma MagnifyOutOfRange(triggered: int, graphClasses: seq<string>, magnifyingClasses: seq<string>)
    requires PyIndex(triggered, |graphClasses|).None?
    ensures MagnifyGraph(triggered, graphClasses, magnifyingClasses) == Failure(IndexError)
  {
  }

  /** `"graph-element"` and `"display-none"` do not contain `"graph-element-expanded"`. */
  lemma ShortNotExpanded(s: string)
    requires |s| < |EXPANDED|
    ensures !Contains(s, EXPANDED)
  {
  }

  /**
   * Two clicks on the same button, with an index valid in both lists: a graph
   * that was not expanded is expanded and then everything is reset; an
   * expanded one is reset and then expanded again.
   */
  lemma MagnifyTwice(triggered: int, graphClasses: seq<string>, magnifyingClasses: seq<string>)
    requires PyIndex(triggered, |graphClasses|).Some? && PyIndex(triggered, |magnifyingClasses|).Some?
    ensures var once := MagnifyGraph(triggered, graphClasses, magnifyingClasses);
      && once.Success?
      && var twice := MagnifyGraph(triggered, once.value.graphs, once.value.buttons);
      && twice.Success?
      && var g := PyIndex(triggered, |graphClasses|).value;
      && (!Contains(graphClasses[g], EXPANDED) ==>
            twice.value == Classes(Repeat(GRAPH, |graphClasses|), Repeat(MAGNIFYING, |magnifyingClasses|)))
      && (Contains(graphClasses[g], EXPANDED) ==> twice.value == once.value.(graphs := Repeat(HIDDEN, |graphClasses|)[g := EXPANDED], buttons := Repeat(HIDDEN, |magnifyingClasses|)[PyIndex(triggered, |magnifyingClasses|).value := MAGNIFYING_MINUS]))
  {
    var g := PyIndex(triggered, |graphClasses|).value;
    var once := MagnifyGraph(triggered, graphClasses, magnifyingClasses);
    if Contains(graphClasses[g], EXPANDED) {
      ShortNotExpanded(GRAPH);
      assert once.value.graphs[g] == GRAPH;
    } else {
      assert once.value.graphs[g] == EXPANDED;
      assert OccursAt(EXPANDED, EXPANDED, 0);
    }
  }
}
