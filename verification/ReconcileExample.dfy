/** A catalogue that names a category's own folder among its old names: the second run opens a case that no one needs. */
module ReconcileExample {
  import opened Wrappers
  import opened Drive
  import opened Sorting
  import opened Tree
  import opened FileCount
  import opened ReconcilePlan
  import opened ReconcileRun
  import opened ReconcileSafety
  import opened ReconcileBuild
  import opened ReconcileCatalogue
  import opened ReconcileConsistent
  import opened ReconcileGrowth
  import opened ReconcileAgain
  import opened ReconcileFixpoint

  function PlainRules(): Rules {
    Rules((n: string) => 0.0, (n: string) => n, (n: string) => n, (n: string) => n, (n: string) => None, (n: string) => None,
          (n: string) => if n == "82" then Some(82) else None)
  }

  function OneCategory(): Config {
    Config(0, [Category("01", "Verwaltung", ["Verwaltung"], [])], "03")
  }

  function NewObject(): Target {
    Target(1, 82, None, Some("82"))
  }

  /** Only the root folder of the drive exists. */
  function EmptyWorld(): World {
    World(Store(map[0 := Entry("root", Folder, [], false, "", 1, map[])], 1, map[], 0), [], None, {})
  }

  lemma EmptyWorldWellFormed()
    ensures WellFormed(PlainRules(), OneCategory(), EmptyWorld())
  {
    var es := EmptyWorld().drive.entries;
    forall p ensures !Path(es, p) {
      if |p| >= 2 { assert !Child(es, p[0], p[1]); }
    }
  }

  lemma EmptyWorldRoot()
    ensures FoundRoot(PlainRules(), OneCategory(), NewObject(), EmptyWorld()) == RootAbsent
  {
    var r, es := PlainRules(), EmptyWorld().drive.entries;
    assert NumberedFolders(r, es, 0, 82, false) == {};
    assert NumberedFolders(r, es, 0, 82, true) == {};
  }

  lemma OneCategoryFlips()
    ensures AsksAgain(PlainRules(), OneCategory(), NewObject(), EmptyWorld(), Key(Some("01"), BothExist))
  {
    var r, cfg, es := PlainRules(), OneCategory(), EmptyWorld().drive.entries;
    EmptyWorldRoot();
    assert Blocked(r, es, [], cfg.cats) == {} by { assert cfg.cats[1..] == []; }
    assert cfg.cats[0].aliases[0] == cfg.cats[0].name;
    assert SelfAliased(r, cfg.cats[0]);
    assert Written(r, es, [], Blocked(r, es, [], cfg.cats), cfg.cats[0]);
  }

  /** An undisturbed first run on an empty drive, then a second one that reports a change. */
  lemma SecondRunMayAsk()
    ensures var r, cfg, t, w := PlainRules(), OneCategory(), NewObject(), EmptyWorld(); var quiet := (n: nat) => false;
      && WellFormed(r, cfg, w)
      && Reconcile(r, cfg, t, w, quiet).Some? && !Reconcile(r, cfg, t, w, quiet).value.aborted
      && var v := Reconcile(r, cfg, t, w, quiet).value.w;
         Reconcile(r, cfg, t, v, quiet).Some? && !NoChanges(Reconcile(r, cfg, t, v, quiet).value)
  {
    hide WellFormed, AsksAgain, Execute, NoChanges, FolderActions, FindRootFolder;
    var r, cfg, t, w := PlainRules(), OneCategory(), NewObject(), EmptyWorld();
    var quiet := (n: nat) => false;
    EmptyWorldWellFormed();
    EmptyWorldRoot();
    OneCategoryFlips();
    FileFreeNeverAborts(r, cfg, t.pk, w, PlanFor(r, cfg, t, w).value, quiet);
    SecondRunChangesNothingIff(r, cfg, t, w, quiet, quiet);
    var v := Reconcile(r, cfg, t, w, quiet).value.w;
    FileFreeNeverAborts(r, cfg, t.pk, v, PlanFor(r, cfg, t, v).value, quiet);
  }
}
