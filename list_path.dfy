/**
 * The "Current Path" line of the listing menu (`get_items_buttons`) and the
 * Back To Root branch of `id_updates` that feeds it.
 */
module ListPath {
  import opened Wrappers
  import opened Text
  import ListSpec

  /**
   * What `parents` can hold: a list of breadcrumbs, or the single bare
   * `{id, name}` record that the Back To Root branch stores as written.
   */
  datatype Parents = Crumbs(crumbs: seq<ListSpec.Crumb>) | Bare(crumb: ListSpec.Crumb)

  /** The names of the breadcrumbs, in order. */
  function Names(cs: seq<ListSpec.Crumb>): (ns: seq<string>)
    ensures |ns| == |cs|
    ensures forall i | 0 <= i < |cs| :: ns[i] == cs[i].name
  {
    if cs == [] then [] else [cs[0].name] + Names(cs[1..])
  }

  /**
   * `'/'.join(i['name'] for i in self.parents)`. Iterating a bare record
   * yields its keys, which are strings, and `'id'['name']` raises
   * `TypeError`: the line has no value then.
   */
  function CurrentPath(p: Parents): (r: Option<string>)
    ensures r.Some? <==> p.Crumbs?
  {
    match p
    case Crumbs(cs) => Some(Join(Names(cs), "/"))
    case Bare(_) => None
  }

  /** `obj.parents = obj.parents[0]`: the first breadcrumb itself, not a list holding it. */
  function RootParentsAsWritten(parents: seq<ListSpec.Crumb>): (p: Parents)
    requires |parents| > 0
  {
    Bare(parents[0])
  }

  /**
   * After Back To Root as written the menu cannot be drawn: building its
   * text raises, so `query_proc` is never cleared and every later button
   * but Cancel is ignored. Before the press the same breadcrumbs gave a path.
   */
  lemma RootPathRaises(parents: seq<ListSpec.Crumb>)
    requires |parents| > 0
    ensures CurrentPath(Crumbs(parents)).Some?
    ensures CurrentPath(RootParentsAsWritten(parents)).None?
  {
  }

  /** The path of a single breadcrumb is its name. */
  lemma {:induction false} PathOfOne(c: ListSpec.Crumb)
    ensures CurrentPath(Crumbs([c])) == Some(c.name)
  {
    assert Names([c]) == [c.name] by {
      assert [c][1..] == [];
    }
  }

  /**
   * Back To Root with `parents := [parents[0]]`: the menu shows the first
   * breadcrumb's name as the path and the callback releases `query_proc`.
   */
  lemma RootPathShown(s: ListSpec.Session, remote: ListSpec.Remote)
    requires !s.flags.queryProc && |s.parents| > 0
    ensures var t := ListSpec.Step(s, ListSpec.Root, remote);
            CurrentPath(Crumbs(t.parents)) == Some(s.parents[0].name) && !t.flags.queryProc
  {
    ListSpec.StepMovesBreadcrumbs(s, ListSpec.Root, remote);
    ListSpec.StepReleases(s, ListSpec.Root, remote);
    PathOfOne(s.parents[0]);
  }

  /** The path has one `/` fewer than there are breadcrumbs, with every name in order between them. */
  lemma {:induction false} PathJoinsNames(cs: seq<ListSpec.Crumb>, c: ListSpec.Crumb)
    requires cs != []
    ensures CurrentPath(Crumbs([c] + cs)) == Some(c.name + "/" + CurrentPath(Crumbs(cs)).value)
  {
    assert ([c] + cs)[1..] == cs;
    assert Names([c] + cs) == [c.name] + Names(cs);
  }
}
