/** The linker's section registry (the `sections` hash map of
 *  src/link/section.c) and the whole-program sanity pass that runs over it.
 *  The map is keyed by section name; the model holds sections by value, so
 *  a visitor hands back the updated section instead of writing through a
 *  pointer.
 */
module Registry {
  import opened Sections
  import opened SanityChecks

  datatype Option<T> = None | Some(value: T)

  /** The two ways the registry ends the program (`errx(1, ...)`). */
  datatype FatalError =
    | DuplicateSectionName(name: string)
    | SanityChecksHaveFailed

  /** What an operation tells its caller: carry on, or exit with an error. */
  datatype Status = Continue | Abort(error: FatalError)

  /** Every name appears at most once in `order`. */
  predicate Distinct(order: seq<string>)
  {
    forall i, j :: 0 <= i < j < |order| ==> order[i] != order[j]
  }

  /** Every section is filed under its own name. */
  predicate Named(m: map<string, Section>)
  {
    forall n :: n in m ==> m[n].name == n
  }

  /** A visitor passes each section through unchanged in name. */
  ghost predicate KeepsNames<A(!new)>(visit: (Section, A) -> (Section, A))
  {
    forall s: Section, a: A :: visit(s, a).0.name == s.name
  }

  /** The effect of visiting the sections named in `order`, one after the
   *  other, threading the accumulator through. Names not in the map are
   *  skipped.
   */
  function Visit<A>(visit: (Section, A) -> (Section, A), m: map<string, Section>, order: seq<string>, acc: A)
    : (r: (map<string, Section>, A))
    ensures r.0.Keys == m.Keys
    decreases |order|
  {
    if order == [] then (m, acc)
    else
      var before := Visit(visit, m, order[..|order| - 1], acc);
      var name := order[|order| - 1];
      if name in before.0 then
        var after := visit(before.0[name], before.1);
        (before.0[name := after.0], after.1)
      else before
  }

  /** Visiting keeps every section filed under its own name. */
  lemma {:induction false} VisitKeepsNamed<A(!new)>(visit: (Section, A) -> (Section, A), m: map<string, Section>,
                                              order: seq<string>, acc: A)
    requires Named(m) && KeepsNames(visit)
    ensures Named(Visit(visit, m, order, acc).0)
    decreases |order|
  {
    if order != [] {
      VisitKeepsNamed(visit, m, order[..|order| - 1], acc);
    }
  }

  // ---------------------------------------------------------------------
  // The sanity pass as a visitor
  // ---------------------------------------------------------------------

  /** The diagnostics of one section, tagged with its name. */
  function Tagged(name: string, diags: set<Diagnostic>): (r: set<(string, Diagnostic)>)
    ensures forall d :: (name, d) in r <==> d in diags
    ensures forall p :: p in r ==> p.0 == name
  {
    set d | d in diags :: (name, d)
  }

  /** The accumulator of the pass: the sticky `sanityChecksFailed` flag and
   *  every diagnostic emitted so far.
   */
  datatype SanityState = SanityState(failed: bool, warnings: set<(string, Diagnostic)>)

  /** What a per-section check does to one section: the section it leaves
   *  behind, whether it fails, and the diagnostics it emits.
   */
  datatype Pass = Pass(normalize: Section -> Section, fails: Section -> bool, report: Section -> set<Diagnostic>)

  /** `doSanityChecks` under the mode switches and bank table given. */
  function SanityPass(cfg: ModeFlags, banks: BankTable): Pass
  {
    Pass(s => Normalized(cfg, banks, s), s => Fails(cfg, banks, s), s => Diagnostics(cfg, banks, s))
  }

  /** A per-section check as a visitor over the registry: it sets the flag
   *  when the section fails and never clears it.
   */
  function PassVisitor(p: Pass): (Section, SanityState) -> (Section, SanityState)
  {
    (s: Section, st: SanityState) =>
      (p.normalize(s), SanityState(st.failed || p.fails(s), st.warnings + Tagged(s.name, p.report(s))))
  }

  /** The diagnostics of the sections of `m` named in `order`. */
  function Warnings(p: Pass, m: map<string, Section>, order: seq<string>): (r: set<(string, Diagnostic)>)
    ensures forall n, d :: (n, d) in r <==> n in order && n in m && d in p.report(m[n])
  {
    set n, d | n in order && n in m && d in p.report(m[n]) :: (n, d)
  }

  /** The last name of a distinct order is not among the earlier ones, and
   *  every name of the order is one of the earlier ones or the last.
   */
  lemma {:induction false} SplitLast(order: seq<string>)
    requires Distinct(order) && order != []
    ensures Distinct(order[..|order| - 1])
    ensures order[|order| - 1] !in order[..|order| - 1]
    ensures forall n :: n in order <==> n in order[..|order| - 1] || n == order[|order| - 1]
  {
    var prefix := order[..|order| - 1];
    assert order == prefix + [order[|order| - 1]];
  }

  /** The pass rewrites exactly the visited sections. */
  lemma {:induction false} PassVisitSections(p: Pass, m: map<string, Section>, order: seq<string>, st: SanityState)
    requires Distinct(order)
    ensures var r := Visit(PassVisitor(p), m, order, st).0;
            forall n :: n in m ==> r[n] == if n in order then p.normalize(m[n]) else m[n]
    decreases |order|
  {
    if order != [] {
      SplitLast(order);
      PassVisitSections(p, m, order[..|order| - 1], st);
    }
  }

  /** Every section of `m` put through the check. */
  function NormalizeAll(p: Pass, m: map<string, Section>): (r: map<string, Section>)
    ensures r.Keys == m.Keys
    ensures forall n :: n in m ==> r[n] == p.normalize(m[n])
  {
    map n | n in m :: p.normalize(m[n])
  }

  /** A pass over every name of the map, each once, checks every section. */
  lemma PassVisitAll(p: Pass, m: map<string, Section>, order: seq<string>, st: SanityState)
    requires Distinct(order) && forall n :: n in order <==> n in m
    ensures Visit(PassVisitor(p), m, order, st).0 == NormalizeAll(p, m)
  {
    PassVisitSections(p, m, order, st);
  }

  /** The flag after the pass is set exactly when it was set before or some
   *  visited section fails.
   */
  lemma {:induction false} PassVisitFlag(p: Pass, m: map<string, Section>, order: seq<string>, st: SanityState)
    requires Distinct(order)
    ensures Visit(PassVisitor(p), m, order, st).1.failed
            == (st.failed || exists n :: n in order && n in m && p.fails(m[n]))
    decreases |order|
  {
    if order != [] {
      var prefix, last := order[..|order| - 1], order[|order| - 1];
      SplitLast(order);
      PassVisitFlag(p, m, prefix, st);
      PassVisitSections(p, m, prefix, st);
    }
  }

  /** The diagnostics gathered by the pass are those gathered before plus
   *  those of every visited section, under the section's name.
   */
  lemma {:induction false} PassVisitWarnings(p: Pass, m: map<string, Section>, order: seq<string>, st: SanityState)
    requires Distinct(order) && Named(m)
    ensures Visit(PassVisitor(p), m, order, st).1.warnings == st.warnings + Warnings(p, m, order)
    decreases |order|
  {
    if order != [] {
      var prefix, last := order[..|order| - 1], order[|order| - 1];
      SplitLast(order);
      PassVisitWarnings(p, m, prefix, st);
      PassVisitSections(p, m, prefix, st);
      if last in m {
        assert Warnings(p, m, order) == Warnings(p, m, prefix) + Tagged(last, p.report(m[last]));
      } else {
        assert Warnings(p, m, order) == Warnings(p, m, prefix);
      }
    }
  }

  // ---------------------------------------------------------------------
  // The registry
  // ---------------------------------------------------------------------

  /** The `sections` map and the static `sanityChecksFailed` flag. */
  class SectionRegistry {
    var sections: map<string, Section>
    var sanityChecksFailed: bool

    /** Every section is filed under its own name. */
    ghost predicate Valid()
      reads this
    {
      Named(sections)
    }

    /** An empty registry, before any object file is read. */
    constructor ()
      ensures sections == map[] && !sanityChecksFailed
      ensures Valid()
    {
      sections := map[];
      sanityChecksFailed := false;
    }

    /** `sect_GetSection`: the section filed under `name`, if any. */
    function GetSection(name: string): (r: Option<Section>)
      reads this
      requires Valid()
      ensures r.Some? <==> name in sections
      ensures r.Some? ==> r.value == sections[name] && r.value.name == name
    {
      if name in sections then Some(sections[name]) else None
    }

    /** `sect_AddSection`: a name already in use ends the program; otherwise
     *  the section is filed under its name and nothing else changes.
     */
    method AddSection(section: Section) returns (status: Status)
      requires Valid()
      modifies this
      ensures Valid()
      ensures sanityChecksFailed == old(sanityChecksFailed)
      ensures section.name in old(sections) ==>
                status == Abort(DuplicateSectionName(section.name)) && sections == old(sections)
      ensures section.name !in old(sections) ==>
                status == Continue && sections == old(sections)[section.name := section]
                && GetSection(section.name) == Some(section)
    {
      if section.name in sections {
        return Abort(DuplicateSectionName(section.name));
      }
      sections := sections[section.name := section];
      status := Continue;
    }

    /** `sect_CleanupSections`: forget every section. */
    method CleanupSections()
      modifies this
      ensures sections == map[] && Valid()
      ensures sanityChecksFailed == old(sanityChecksFailed)
    {
      sections := map[];
    }

    /** `sect_ForEach`: pass every section, in some order, through `visit`,
     *  threading `acc` through. `order` is the order taken: every name once.
     */
    method ForEach<A(!new)>(visit: (Section, A) -> (Section, A), acc: A) returns (acc': A, ghost order: seq<string>)
      requires Valid() && KeepsNames(visit)
      modifies this
      ensures Valid()
      ensures sanityChecksFailed == old(sanityChecksFailed)
      ensures Distinct(order) && forall n :: n in order <==> n in old(sections)
      ensures (sections, acc') == Visit(visit, old(sections), order, acc)
    {
      ghost var start := sections;
      var todo := sections.Keys;
      order := [];
      acc' := acc;
      while todo != {}
        invariant todo <= start.Keys
        invariant forall n :: n in start ==> (n in order <==> n !in todo)
        invariant forall n :: n in order ==> n in start
        invariant Distinct(order)
        invariant (sections, acc') == Visit(visit, start, order, acc)
        invariant sanityChecksFailed == old(sanityChecksFailed)
        decreases |todo|
      {
        var name :| name in todo;
        var after := visit(sections[name], acc');
        sections := sections[name := after.0];
        acc' := after.1;
        assert (order + [name])[..|order|] == order;
        order := order + [name];
        todo := todo - {name};
      }
      VisitKeepsNamed(visit, start, order, acc);
    }

    /** Run a per-section check over every section, setting the sticky flag
     *  when one fails. `warnings` is every diagnostic the check emitted, under
     *  the name of its section.
     */
    method CheckAll(p: Pass) returns (warnings: set<(string, Diagnostic)>)
      requires Valid() && forall s: Section :: p.normalize(s).name == s.name
      modifies this
      ensures Valid()
      ensures sections == NormalizeAll(p, old(sections))
      ensures sanityChecksFailed
                == (old(sanityChecksFailed) || exists n :: n in old(sections) && p.fails(old(sections)[n]))
      ensures forall n, d :: (n, d) in warnings <==> n in old(sections) && d in p.report(old(sections)[n])
    {
      ghost var start := sections;
      var initial := SanityState(sanityChecksFailed, {});
      var st, order := ForEach(PassVisitor(p), initial);
      PassVisitAll(p, start, order, initial);
      PassVisitFlag(p, start, order, initial);
      PassVisitWarnings(p, start, order, initial);
      sanityChecksFailed := st.failed;
      warnings := st.warnings;
    }

    /** `sect_DoSanityChecks`: run `doSanityChecks` over every section, then
     *  end the program if the sticky flag is set.
     */
    method DoSanityChecks(cfg: ModeFlags, banks: BankTable) returns (status: Status, warnings: set<(string, Diagnostic)>)
      requires Valid()
      modifies this
      ensures Valid()
      ensures sections == NormalizeAll(SanityPass(cfg, banks), old(sections))
      ensures sanityChecksFailed
                == (old(sanityChecksFailed) || exists n :: n in old(sections) && Fails(cfg, banks, old(sections)[n]))
      ensures status == (if sanityChecksFailed then Abort(SanityChecksHaveFailed) else Continue)
      ensures forall n, d :: (n, d) in warnings <==> n in old(sections) && d in Diagnostics(cfg, banks, old(sections)[n])
    {
      warnings := CheckAll(SanityPass(cfg, banks));
      if sanityChecksFailed {
        status := Abort(SanityChecksHaveFailed);
      } else {
        status := Continue;
      }
    }
  }
}
