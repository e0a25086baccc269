/** The category filter of the Rust loggers (fmiapi/src/category_filter.rs).
    A blacklist lets through every category it does not hold, a whitelist
    only the categories it holds. The Rust enum is a value held inside the
    logger; its `&mut self` operations are modelled as functions returning the
    updated filter together with the `Result` the source returns. */
module CategoryFilters {
  import opened Wrappers

  datatype CategoryFilter<T> = Blacklist(members: set<T>) | Whitelist(members: set<T>)
  {
    /** `enabled`: whether a log event of category `c` is emitted. */
    predicate Enabled(c: T)
    {
      if Blacklist? then c !in members else c in members
    }
  }

  /** `new_blacklist`: an empty blacklist, enabling every category. */
  function NewBlacklist<T(!new)>(): (f: CategoryFilter<T>)
    ensures forall c :: f.Enabled(c)
  {
    Blacklist({})
  }

  /** `new_whitelist`: an empty whitelist, enabling no category. */
  function NewWhitelist<T(!new)>(): (f: CategoryFilter<T>)
    ensures forall c :: !f.Enabled(c)
  {
    Whitelist({})
  }

  /** `enable_category`: afterwards `c` is enabled and nothing else changed;
      the result is Ok exactly when `c` was disabled before, and otherwise
      `Err(c)` with the filter untouched. The kind of list never changes. */
  function EnableCategory<T(==,!new)>(f: CategoryFilter<T>, c: T): (r: (CategoryFilter<T>, Result<(), T>))
    ensures r.0.Enabled(c)
    ensures forall d :: d != c ==> (r.0.Enabled(d) <==> f.Enabled(d))
    ensures r.1.Success? <==> !f.Enabled(c)
    ensures r.1.Failure? ==> r.1.error == c && r.0 == f
    ensures r.0.Blacklist? == f.Blacklist?
  {
    match f
    case Blacklist(s) =>
      if c in s then (Blacklist(s - {c}), Success(())) else (f, Failure(c))
    case Whitelist(s) =>
      if c !in s then (Whitelist(s + {c}), Success(())) else (f, Failure(c))
  }

  /** `disable_category`: the mirror image of `EnableCategory`. */
  function DisableCategory<T(==,!new)>(f: CategoryFilter<T>, c: T): (r: (CategoryFilter<T>, Result<(), T>))
    ensures !r.0.Enabled(c)
    ensures forall d :: d != c ==> (r.0.Enabled(d) <==> f.Enabled(d))
    ensures r.1.Success? <==> f.Enabled(c)
    ensures r.1.Failure? ==> r.1.error == c && r.0 == f
    ensures r.0.Blacklist? == f.Blacklist?
  {
    match f
    case Blacklist(s) =>
      if c !in s then (Blacklist(s + {c}), Success(())) else (f, Failure(c))
    case Whitelist(s) =>
      if c in s then (Whitelist(s - {c}), Success(())) else (f, Failure(c))
  }

  /** Disabling a category that was just enabled restores the filter. */
  lemma DisableUndoesEnable<T(!new)>(f: CategoryFilter<T>, c: T)
    requires !f.Enabled(c)
    ensures DisableCategory(EnableCategory(f, c).0, c).0 == f
  {
    match f
    case Blacklist(s) =>
      assert s - {c} + {c} == s;
    case Whitelist(s) =>
      assert s + {c} - {c} == s;
  }

  /** Enabling each category of a list in turn, ignoring the results. */
  function EnableEach<T(==,!new)>(f: CategoryFilter<T>, cs: seq<T>): CategoryFilter<T>
    decreases |cs|
  {
    if cs == [] then f else EnableEach(EnableCategory(f, cs[0]).0, cs[1..])
  }

  function DisableEach<T(==,!new)>(f: CategoryFilter<T>, cs: seq<T>): CategoryFilter<T>
    decreases |cs|
  {
    if cs == [] then f else DisableEach(DisableCategory(f, cs[0]).0, cs[1..])
  }

  /** After enabling a list, a category is enabled exactly when it is listed
      or was enabled before. */
  lemma {:induction false} EnableEachEnabled<T(!new)>(f: CategoryFilter<T>, cs: seq<T>, c: T)
    ensures EnableEach(f, cs).Enabled(c) <==> c in cs || f.Enabled(c)
    decreases |cs|
  {
    if cs != [] {
      EnableEachEnabled(EnableCategory(f, cs[0]).0, cs[1..], c);
      assert c in cs <==> c == cs[0] || c in cs[1..];
    }
  }

  /** After disabling a list, a category is enabled exactly when it is not
      listed and was enabled before. */
  lemma {:induction false} DisableEachEnabled<T(!new)>(f: CategoryFilter<T>, cs: seq<T>, c: T)
    ensures DisableEach(f, cs).Enabled(c) <==> c !in cs && f.Enabled(c)
    decreases |cs|
  {
    if cs != [] {
      DisableEachEnabled(DisableCategory(f, cs[0]).0, cs[1..], c);
      assert c in cs <==> c == cs[0] || c in cs[1..];
    }
  }
}
