/**
 * The command palette (components/CommandMenu.tsx): a fixed, ordered list of
 * three commands, a case-insensitive substring filter over their labels, and
 * the search query, which the palette keeps for as long as it stays mounted.
 */
module CommandMenu {
  import opened Types
  import opened Text

  /** What selecting a command does before the palette closes. */
  datatype Action = ChangeView(target: View) | NoAction

  datatype Command = Command(id: string, title: string, action: Action)

  /** The registered commands, in registration order. */
  function Options(): seq<Command>
  {
    [ Command("deployments", "Go to Dashboard", ChangeView(Dashboard)),
      Command("settings", "Settings", ChangeView(Settings)),
      Command("docs", "Documentation", NoAction) ]
  }

  /** Go to Dashboard and Settings change the view; Documentation does nothing. */
  lemma OptionActions(current: View)
    ensures ApplyAction(Options()[0].action, current) == Dashboard
    ensures ApplyAction(Options()[1].action, current) == Settings
    ensures ApplyAction(Options()[2].action, current) == current
  {
  }

  /** The current view after running `a` while `current` is shown. */
  function ApplyAction(a: Action, current: View): (v: View)
    ensures a.ChangeView? ==> v == a.target
    ensures a.NoAction? ==> v == current
  {
    match a
    case ChangeView(t) => t
    case NoAction => current
  }

  /** A command is listed when its lower-cased label contains the lower-cased query. */
  predicate Matches(c: Command, query: string)
  {
    Includes(Lower(c.title), Lower(query))
  }

  /** The options whose label matches `query`, in their original order. */
  function Filter(opts: seq<Command>, query: string): (r: seq<Command>)
    ensures |r| <= |opts|
    ensures forall c :: c in r ==> c in opts && Matches(c, query)
  {
    if opts == [] then []
    else (if Matches(opts[0], query) then [opts[0]] else []) + Filter(opts[1..], query)
  }

  /** `a` is `b` with some elements removed, the rest kept in order. */
  predicate IsSubsequence<T(==)>(a: seq<T>, b: seq<T>)
    decreases |b|
  {
    a == [] || (b != [] && ((a[0] == b[0] && IsSubsequence(a[1..], b[1..])) || IsSubsequence(a, b[1..])))
  }

  /** Filtering keeps the order of the options: the result is a subsequence. */
  lemma {:induction false} FilterIsSubsequence(opts: seq<Command>, query: string)
    ensures IsSubsequence(Filter(opts, query), opts)
  {
    if opts != [] {
      FilterIsSubsequence(opts[1..], query);
      var rest := Filter(opts[1..], query);
      if Matches(opts[0], query) {
        assert Filter(opts, query) == [opts[0]] + rest;
        assert ([opts[0]] + rest)[1..] == rest;
      } else {
        assert Filter(opts, query) == rest;
        SubsequenceDropHead(rest, opts);
      }
    }
  }

  /** A subsequence of `b[1..]` is a subsequence of `b`. */
  lemma SubsequenceDropHead<T>(a: seq<T>, b: seq<T>)
    requires b != [] && IsSubsequence(a, b[1..])
    ensures IsSubsequence(a, b)
  {
  }

  /** An option is listed exactly when it is registered and its label matches. */
  lemma {:induction false} FilterMembership(opts: seq<Command>, query: string, c: Command)
    ensures c in Filter(opts, query) <==> c in opts && Matches(c, query)
  {
    if opts != [] {
      FilterMembership(opts[1..], query, c);
      assert opts == [opts[0]] + opts[1..];
    }
  }

  /** The empty query lists every option. */
  lemma {:induction false} FilterEmptyQuery(opts: seq<Command>)
    ensures Filter(opts, "") == opts
  {
    if opts != [] {
      IncludesEmpty(Lower(opts[0].title));
      FilterEmptyQuery(opts[1..]);
    }
  }

  /** An option matching a longer query also matches any prefix of it. */
  lemma MatchesPrefix(c: Command, q: string, s: string)
    requires Matches(c, q + s)
    ensures Matches(c, q)
  {
    LowerAppend(q, s);
    IncludesPrefixOfPattern(Lower(c.title), Lower(q), Lower(s));
  }

  /**
   * Typing more characters only narrows the list: the options listed for
   * `q + s` are those listed for `q` filtered again.
   */
  lemma {:induction false} FilterNarrows(opts: seq<Command>, q: string, s: string)
    ensures Filter(opts, q + s) == Filter(Filter(opts, q), q + s)
  {
    if opts != [] {
      FilterNarrows(opts[1..], q, s);
      if Matches(opts[0], q + s) {
        MatchesPrefix(opts[0], q, s);
      }
      var narrowed := Filter(opts, q);
      if Matches(opts[0], q) {
        assert narrowed == [opts[0]] + Filter(opts[1..], q);
        assert narrowed != [] && narrowed[0] == opts[0] && narrowed[1..] == Filter(opts[1..], q);
      } else {
        assert narrowed == Filter(opts[1..], q);
        assert !Matches(opts[0], q + s);
      }
    }
  }

  /** Consequently the longer query lists a subsequence of what the shorter one lists. */
  lemma FilterMonotonic(opts: seq<Command>, q: string, s: string)
    ensures IsSubsequence(Filter(opts, q + s), Filter(opts, q))
    ensures forall c :: c in Filter(opts, q + s) ==> c in Filter(opts, q)
  {
    FilterNarrows(opts, q, s);
    FilterIsSubsequence(Filter(opts, q), q + s);
  }

  /** With the empty query the palette lists its three commands in order. */
  lemma OptionsWithEmptyQuery()
    ensures Filter(Options(), "") == Options()
    ensures |Filter(Options(), "")| == 3
    ensures Filter(Options(), "")[0].title == "Go to Dashboard"
    ensures Filter(Options(), "")[1].title == "Settings"
    ensures Filter(Options(), "")[2].title == "Documentation"
  {
    FilterEmptyQuery(Options());
  }

  /** What the open palette shows: the listed labels and whether "No results" appears. */
  datatype Listing = Listing(labels: seq<string>, noResults: bool)

  /** The labels of `cmds`, in order. */
  function Labels(cmds: seq<Command>): (r: seq<string>)
    ensures |r| == |cmds|
    ensures forall i :: 0 <= i < |cmds| ==> r[i] == cmds[i].title
  {
    if cmds == [] then [] else [cmds[0].title] + Labels(cmds[1..])
  }

  /**
   * The palette renders nothing while closed; open, it lists the labels of
   * the options matching `query` and shows "No results" exactly when none match.
   */
  function Render(isOpen: bool, opts: seq<Command>, query: string): (r: Option<Listing>)
    ensures r.None? <==> !isOpen
    ensures r.Some? ==> r.value.labels == Labels(Filter(opts, query))
    ensures r.Some? ==> (r.value.noResults <==> forall c :: c in opts ==> !Matches(c, query))
  {
    if !isOpen then None
    else
      var shown := Filter(opts, query);
      assert shown == [] <==> forall c :: c in opts ==> !Matches(c, query) by {
        forall c | c in opts { FilterMembership(opts, query, c); }
        if shown != [] { assert shown[0] in shown; }
      }
      Some(Listing(Labels(shown), |shown| == 0))
  }

  /** The palette's own state: its commands and the search query, kept while the palette is closed. */
  class Menu {
    const options: seq<Command>
    var query: string

    constructor ()
      ensures options == Options() && query == ""
    {
      options := Options();
      query := "";
    }

    /** The search input's change handler. */
    method SetQuery(q: string)
      modifies this
      ensures query == q
    {
      query := q;
    }
  }
}
