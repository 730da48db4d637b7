// Deleting an infected source file: when, with which hash, and that it never
// touches the verdict (api/scanner.py, ansible/delete_infected_source.yml).
module SourceDeletion {
  import opened Wrappers
  import opened Policy
  import opened ScanTable
  import opened ScanPlaybook
  import opened Protocol
  import opened RowInvariant
  import opened SystemInvariant
  import opened Runs
  import opened StepEffects

  // Step v is the commit of the row's INFECTED verdict.
  ghost predicate InfectedVerdictAt(r: Run, v: nat, id: nat) {
    && v < |r.steps| && |r.states| == |r.steps| + 1
    && r.steps[v] == Advance(Job(id), Committed)
    && Job(id) in r.states[v].threads && r.states[v].threads[Job(id)].pc.WriteVerdict?
    && id < |r.states[v + 1].entries|
    && r.states[v + 1].entries[id].row.status == INFECTED
    && r.states[v + 1].entries[id].row.allowed == Some(false)
  }

  // Step c is the re-check: at that moment the file at `key` had content `hash`.
  ghost predicate CheckedAt(r: Run, c: nat, id: nat, key: (string, string), hash: string) {
    && c < |r.steps| && |r.states| == |r.steps| + 1
    && r.steps[c] == Advance(Job(id), Stat(Some(hash)))
    && Job(id) in r.states[c].threads && r.states[c].threads[Job(id)].pc.DeleteStat?
    && key in r.states[c].remote && r.states[c].remote[key] == hash
  }

  predicate InDeletion(pc: Pc) {
    Deleting(pc) || pc.NoteDeletion?
  }

  lemma EnteringDeletion(cfg: Config, t: Thread, e: Entry, a: Answer)
    requires ThreadOk(t, e) && !t.sweeping && AnswerFits(t, e, a)
    requires !InDeletion(t.pc) && InDeletion(Advanced(cfg, t, e, a).0.pc)
    ensures a.Committed? && t.pc.WriteVerdict?
    ensures Advanced(cfg, t, e, a).1.row.status == INFECTED
    ensures Advanced(cfg, t, e, a).1.row.allowed == Some(false)
  {
    hide Scanning, HashAccepted, UniqueSlugs, ResultsAdmitted, Stored;
    if t.pc.WriteVerdict? {
      VerdictShape(t, e);
    }
  }

  // In every run the deletion phase comes after the committed INFECTED verdict.
  lemma {:induction false} DeletionFollowsVerdict(cfg: Config, r: Run, k: nat, id: nat) returns (v: nat)
    requires r.Valid(cfg) && k < |r.states|
    requires Job(id) in r.states[k].threads && InDeletion(r.states[k].threads[Job(id)].pc)
    ensures v < k && InfectedVerdictAt(r, v, id)
    decreases k
  {
    hide Advanced, AnswerFits, ThreadOk;
    PreviousThread(cfg, r, k, Job(id));
    var t := r.states[k - 1].threads[Job(id)];
    if InDeletion(t.pc) {
      v := DeletionFollowsVerdict(cfg, r, k - 1, id);
    } else {
      EnteringDeletion(cfg, t, r.states[k - 1].entries[id], r.steps[k - 1].answer);
      v := k - 1;
    }
  }

  // A job about to remove a file has found the scanned hash at that very path.
  lemma {:induction false} RemovalFollowsCheck(cfg: Config, r: Run, k: nat, id: nat) returns (c: nat)
    requires r.Valid(cfg) && k < |r.states|
    requires Job(id) in r.states[k].threads && r.states[k].threads[Job(id)].pc.DeleteRemove?
    ensures id < |r.states[k].entries|
    ensures c < k && CheckedAt(r, c, id,
      (r.states[k].entries[id].row.file.host, r.states[k].threads[Job(id)].pc.canonical),
      r.states[k].threads[Job(id)].pc.hash)
    decreases k
  {
    PreviousThread(cfg, r, k, Job(id));
    var t := r.states[k - 1].threads[Job(id)];
    if MovesThread(r.steps[k - 1], Job(id)) {
      EnteringRemoval(cfg, t, r.states[k - 1].entries[id], r.steps[k - 1].answer);
      RecheckSaw(cfg, r, k - 1, id);
      c := k - 1;
    } else {
      c := RemovalFollowsCheck(cfg, r, k - 1, id);
    }
  }

  lemma EnteringRemoval(cfg: Config, t: Thread, e: Entry, a: Answer)
    requires AnswerFits(t, e, a) && Advanced(cfg, t, e, a).0.pc.DeleteRemove?
    ensures var t' := Advanced(cfg, t, e, a).0;
      t.pc == DeleteStat(t'.pc.root, t'.pc.hash, t'.pc.canonical) && a == Stat(Some(t'.pc.hash))
  {
    hide Effect, CanCommit, Aligned, UniqueSlugs, HashAccepted;
  }

  lemma RecheckSaw(cfg: Config, r: Run, c: nat, id: nat)
    requires r.Valid(cfg) && c < |r.steps| && MovesThread(r.steps[c], Job(id)) && r.steps[c].answer.Stat?
    requires Job(id) in r.states[c].threads && r.states[c].threads[Job(id)].target == id < |r.states[c].entries|
    requires r.states[c].threads[Job(id)].pc.DeleteStat? && r.steps[c].answer.content.Some?
    ensures CheckedAt(r, c, id, (r.states[c].entries[id].row.file.host, r.states[c].threads[Job(id)].pc.canonical),
                      r.steps[c].answer.content.value)
  {
    assert r.Follows(cfg, c);
  }

  // ---------------------------------------------------------------------------
  // The root
  // ---------------------------------------------------------------------------

  predicate HasRoot(pc: Pc) {
    pc.DeleteResolve? || pc.DeleteStat? || pc.DeleteRemove?
  }

  lemma WhereRootComesFrom(cfg: Config, t: Thread, e: Entry, a: Answer)
    requires AnswerFits(t, e, a) && HasRoot(Advanced(cfg, t, e, a).0.pc)
    ensures var root := Advanced(cfg, t, e, a).0.pc.root;
      if HasRoot(t.pc) then t.pc.root == root else a == Host(Some(root))
  {}

  // The deletion works under the root that the configuration gives to the row's
  // own host.
  lemma {:induction false} RootIsConfigured(cfg: Config, r: Run, k: nat, id: nat)
    requires r.Valid(cfg) && k < |r.states|
    requires Job(id) in r.states[k].threads && HasRoot(r.states[k].threads[Job(id)].pc)
    ensures id < |r.states[k].entries|
    ensures ConfiguredRoot(cfg, r.states[k].entries[id].row.file.host) == Some(r.states[k].threads[Job(id)].pc.root)
    decreases k
  {
    PreviousThread(cfg, r, k, Job(id));
    var t := r.states[k - 1].threads[Job(id)];
    if MovesThread(r.steps[k - 1], Job(id)) {
      WhereRootComesFrom(cfg, t, r.states[k - 1].entries[id], r.steps[k - 1].answer);
    }
    if HasRoot(t.pc) {
      RootIsConfigured(cfg, r, k - 1, id);
    } else {
      assert r.Follows(cfg, k - 1);
    }
  }

  // ---------------------------------------------------------------------------
  // The remote files
  // ---------------------------------------------------------------------------

  // Removals take keys away, and the environment puts trees in place.
  lemma {:induction false} RemoteIsTree(cfg: Config, r: Run, k: nat)
    requires r.Valid(cfg) && k < |r.states|
    ensures TreeLike(r.states[k].remote)
    decreases k
  {
    if k == 0 {
    } else {
      RemoteIsTree(cfg, r, k - 1);
      assert r.Follows(cfg, k - 1);
      if !r.steps[k - 1].RemoteChange? { RemoteStep(cfg, r.states[k - 1], r.steps[k - 1]); }
    }
  }

  lemma RemoteStep(cfg: Config, s: State, step: Step)
    requires Enabled(cfg, s, step) && !step.RemoteChange?
    ensures var s' := Apply(cfg, s, step); forall k :: k in s'.remote ==> k in s.remote && s'.remote[k] == s.remote[k]
  {}

  // Step m puts the content at `key` that is still there at state k.
  ghost predicate Arrives(r: Run, m: nat, k: nat, key: (string, string)) {
    && m < k < |r.states| && |r.states| == |r.steps| + 1 && r.steps[m].RemoteChange? && key in r.states[k].remote
    && forall j :: m < j <= k ==> key in r.states[j].remote && r.states[j].remote[key] == r.states[k].remote[key]
  }

  // Content that was not there before is the environment's.
  lemma {:induction false} ContentArrives(cfg: Config, r: Run, c: nat, k: nat, key: (string, string)) returns (m: nat)
    requires r.Valid(cfg) && c < k < |r.states| && key in r.states[k].remote
    requires key in r.states[c].remote ==> r.states[c].remote[key] != r.states[k].remote[key]
    ensures c <= m && Arrives(r, m, k, key)
    decreases k
  {
    assert r.Follows(cfg, k - 1);
    if r.steps[k - 1].RemoteChange? {
      m := k - 1;
    } else {
      RemoteStep(cfg, r.states[k - 1], r.steps[k - 1]);
      m := ContentArrives(cfg, r, c, k - 1, key);
    }
  }

  // Only a job at its last deletion step makes a file go: the one at its path, or
  // those below when the path is a directory.
  lemma WhatGoes(cfg: Config, s: State, step: Step, key: (string, string))
    requires Enabled(cfg, s, step) && !step.RemoteChange?
    requires key in s.remote && key !in Apply(cfg, s, step).remote
    ensures step.Advance? && step.actor in s.threads && s.threads[step.actor].target < |s.entries|
    ensures var t := s.threads[step.actor];
      t.pc.DeleteRemove? && key.0 == HostOf(s, t) && UnderRoot(key.1, t.pc.canonical)
  {}

  lemma {:induction false} BelowIsUnder(path: string, canonical: string, root: string)
    requires UnderRoot(path, canonical) && UnderRoot(canonical, root)
    ensures UnderRoot(path, root)
  {
    if path != canonical && canonical != root {
      assert (root + "/") == canonical[..|root| + 1] == path[..|root| + 1];
    }
  }

  // The job whose step it is, and what its path and root are.
  lemma RemovingJob(cfg: Config, r: Run, k: nat, key: (string, string)) returns (id: nat)
    requires r.Valid(cfg) && k < |r.steps| && !r.steps[k].RemoteChange?
    requires key in r.states[k].remote && key !in r.states[k + 1].remote
    ensures Job(id) in r.states[k].threads && r.states[k].threads[Job(id)].pc.DeleteRemove?
    ensures id < |r.states[k].entries|
    ensures var pc := r.states[k].threads[Job(id)].pc; var row := r.states[k].entries[id].row;
      && key.0 == row.file.host && UnderRoot(key.1, pc.canonical) && pc.hash == row.sha256
      && UnderRoot(pc.canonical, pc.root) && key.0 in cfg.hosts && pc.root == cfg.hosts[key.0]
  {
    assert r.Follows(cfg, k);
    WhatGoes(cfg, r.states[k], r.steps[k], key);
    ReachableInv(cfg, r, k);
    assert Placed(r.states[k].entries, r.steps[k].actor, r.states[k].threads[r.steps[k].actor]);
    id := r.steps[k].actor.id;
    RootIsConfigured(cfg, r, k, id);
  }

  // The environment leaves the remote hosts alone strictly between two steps.
  ghost predicate QuietBetween(r: Run, c: nat, k: nat)
    requires k <= |r.steps|
  {
    forall m :: c < m < k ==> !r.steps[m].RemoteChange?
  }

  // What goes is the file that was looked at, with the content that was hashed.
  ghost predicate IsChecked(s: State, key: (string, string), path: string, hash: string)
    requires key in s.remote
  {
    key.1 == path && s.remote[key] == hash
  }

  // A file of a remote host that the scanner makes go lies under the root that is
  // configured for its host, and before that, in this order: an INFECTED verdict
  // of a row of that host committed; a re-check found exactly that row's hash at
  // the path that is removed. If the host was quiet since, what goes is that file
  // with that content. Whatever else goes, another file or other content, came
  // there after the re-check and was not looked at.
  lemma OnlyConfirmedInfectedSourcesGo(cfg: Config, r: Run, k: nat, key: (string, string))
    returns (id: nat, v: nat, c: nat, path: string)
    requires r.Valid(cfg) && k < |r.steps| && !r.steps[k].RemoteChange?
    requires key in r.states[k].remote && key !in r.states[k + 1].remote
    ensures v < c < k && InfectedVerdictAt(r, v, id)
    ensures id < |r.states[v].entries| && key.0 == r.states[v].entries[id].row.file.host
    ensures CheckedAt(r, c, id, (key.0, path), r.states[v].entries[id].row.sha256)
    ensures key.0 in cfg.hosts && UnderRoot(path, cfg.hosts[key.0]) && UnderRoot(key.1, cfg.hosts[key.0])
    ensures UnderRoot(key.1, path)
    ensures var hash := r.states[v].entries[id].row.sha256;
      && (QuietBetween(r, c, k) ==> IsChecked(r.states[k], key, path, hash))
      && (!IsChecked(r.states[k], key, path, hash) ==> exists m :: c < m && Arrives(r, m, k, key))
  {
    id := RemovingJob(cfg, r, k, key);
    var t := r.states[k].threads[Job(id)];
    path := t.pc.canonical;
    BelowIsUnder(key.1, path, t.pc.root);
    c := RemovalFollowsCheck(cfg, r, k, id);
    v := DeletionFollowsVerdict(cfg, r, c, id);
    RowsAgree(cfg, r, v, k, id);
    if !IsChecked(r.states[k], key, path, t.pc.hash) {
      var m := UncheckedArrives(cfg, r, c, k, key, path, t.pc.hash);
    }
  }

  lemma UncheckedArrives(cfg: Config, r: Run, c: nat, k: nat, key: (string, string), path: string, hash: string)
    returns (m: nat)
    requires r.Valid(cfg) && c < k < |r.states| && !r.steps[c].RemoteChange?
    requires (key.0, path) in r.states[c].remote && r.states[c].remote[(key.0, path)] == hash
    requires key in r.states[k].remote && UnderRoot(key.1, path) && !IsChecked(r.states[k], key, path, hash)
    ensures c < m && Arrives(r, m, k, key)
  {
    RemoteIsTree(cfg, r, c);
    m := ContentArrives(cfg, r, c, k, key);
  }

  lemma RowsAgree(cfg: Config, r: Run, v: nat, k: nat, id: nat)
    requires r.Valid(cfg) && v <= k < |r.states| && Job(id) in r.states[v].threads
    ensures id < |r.states[v].entries| && id < |r.states[k].entries|
    ensures r.states[k].entries[id].row.file == r.states[v].entries[id].row.file
    ensures r.states[k].entries[id].row.sha256 == r.states[v].entries[id].row.sha256
  {
    RunContinues(cfg, r, v, k);
    ReachableInv(cfg, r, v);
    assert Placed(r.states[v].entries, Job(id), r.states[v].threads[Job(id)]);
    assert Continues(r.states[v].entries[id], r.states[k].entries[id]);
  }

  // Which files go at the moment of a successful removal: those at the path and
  // below it, whatever their content.
  lemma WhatGoesIff(cfg: Config, s: State, id: nat, gone: set<string>, key: (string, string))
    requires TreeLike(s.remote) && Enabled(cfg, s, Advance(Job(id), Removal(true, gone))) && key in s.remote
    ensures var t := s.threads[Job(id)]; var path := (HostOf(s, t), t.pc.canonical);
      && (key !in Apply(cfg, s, Advance(Job(id), Removal(true, gone))).remote
          <==> key.0 == path.0 && UnderRoot(key.1, path.1))
      && (key != path && key !in Apply(cfg, s, Advance(Job(id), Removal(true, gone))).remote ==> path !in s.remote)
  {
    var t := s.threads[Job(id)];
    assert key in Gone(s, t, Removal(true, gone)) <==> key.0 == HostOf(s, t) && key.1 in gone;
  }

  // Everything that a host has at a path or below it is the file at the path, with
  // the given content.
  ghost predicate HoldsOnly(remote: map<(string, string), string>, host: string, path: string, hash: string) {
    forall k :: k in remote && k.0 == host && UnderRoot(k.1, path) ==> k.1 == path && remote[k] == hash
  }

  // The removal as the playbook can make it: all that is at the path goes.
  ghost predicate TakesOnlyChecked(cfg: Config, s: State, id: nat)
    requires Job(id) in s.threads && s.threads[Job(id)].pc.DeleteRemove?
  {
    var pc := s.threads[Job(id)].pc;
    forall gone, key :: Takes(cfg, s, id, gone, key) ==> IsChecked(s, key, pc.canonical, pc.hash)
  }

  predicate Takes(cfg: Config, s: State, id: nat, gone: set<string>, key: (string, string)) {
    var removal := Advance(Job(id), Removal(true, gone));
    Enabled(cfg, s, removal) && key in s.remote && key !in Apply(cfg, s, removal).remote
  }

  // A removal takes nothing unchecked exactly when the host has nothing else at
  // the path when it happens.
  lemma TakesOnlyCheckedIff(cfg: Config, s: State, id: nat)
    requires TreeLike(s.remote) && Job(id) in s.threads && s.threads[Job(id)].target < |s.entries|
    requires s.threads[Job(id)].pc.DeleteRemove?
    ensures var t := s.threads[Job(id)];
      TakesOnlyChecked(cfg, s, id) <==> HoldsOnly(s.remote, HostOf(s, t), t.pc.canonical, t.pc.hash)
  {
    var t := s.threads[Job(id)];
    var host, pc := HostOf(s, t), t.pc;
    if HoldsOnly(s.remote, host, pc.canonical, pc.hash) {
      forall gone, key | Takes(cfg, s, id, gone, key)
        ensures IsChecked(s, key, pc.canonical, pc.hash)
      {
        WhatGoesIff(cfg, s, id, gone, key);
      }
    }
    if TakesOnlyChecked(cfg, s, id) {
      var all := AllBelow(s, host, pc.canonical);
      forall key | key in s.remote && key.0 == host && UnderRoot(key.1, pc.canonical)
        ensures key.1 == pc.canonical && s.remote[key] == pc.hash
      {
        WhatGoesIff(cfg, s, id, all, key);
        assert Takes(cfg, s, id, all, key);
        assert IsChecked(s, key, pc.canonical, pc.hash);
      }
    }
  }

  function AllBelow(s: State, host: string, path: string): set<string> {
    set k | k in s.remote && k.0 == host && UnderRoot(k.1, path) :: k.1
  }

  // So, in every run, if the host was quiet since the job's re-check, the removal
  // takes the checked file or nothing.
  lemma QuietHostSuffices(cfg: Config, r: Run, k: nat, id: nat) returns (c: nat)
    requires r.Valid(cfg) && k < |r.states|
    requires Job(id) in r.states[k].threads && r.states[k].threads[Job(id)].pc.DeleteRemove?
    ensures var pc := r.states[k].threads[Job(id)].pc;
      && id < |r.states[k].entries| && c < k
      && CheckedAt(r, c, id, (r.states[k].entries[id].row.file.host, pc.canonical), pc.hash)
    ensures QuietBetween(r, c, k) ==> TakesOnlyChecked(cfg, r.states[k], id)
  {
    c := RemovalFollowsCheck(cfg, r, k, id);
    var s, pc := r.states[k], r.states[k].threads[Job(id)].pc;
    var host := s.entries[id].row.file.host;
    PlacedAt(cfg, r, k, Job(id));
    RemoteIsTree(cfg, r, k);
    if QuietBetween(r, c, k) {
      forall key | key in s.remote && key.0 == host && UnderRoot(key.1, pc.canonical)
        ensures key.1 == pc.canonical && s.remote[key] == pc.hash
      {
        if !IsChecked(s, key, pc.canonical, pc.hash) {
          var m := UncheckedArrives(cfg, r, c, k, key, pc.canonical, pc.hash);
        }
      }
    }
    TakesOnlyCheckedIff(cfg, s, id);
  }

  // ---------------------------------------------------------------------------
  // What a host can do between the re-check and the removal
  // ---------------------------------------------------------------------------

  // The job is about to remove a path and the file that it has checked is there.
  ghost predicate ChecksOut(s: State, id: nat) {
    && Job(id) in s.threads && s.threads[Job(id)].target < |s.entries| && s.threads[Job(id)].pc.DeleteRemove?
    && var pc := s.threads[Job(id)].pc; var path := (HostOf(s, s.threads[Job(id)]), pc.canonical);
    && path in s.remote && s.remote[path] == pc.hash
  }

  // One change of the host and the removal lead on from s, and what goes is not the
  // checked file: it is at another path or has other content.
  ghost predicate LosesUnchecked(cfg: Config, s: State, id: nat, change: Step, removal: Step, key: (string, string),
                                 content: string)
  {
    && Job(id) in s.threads && s.threads[Job(id)].pc.DeleteRemove?
    && var pc := s.threads[Job(id)].pc;
    && change.RemoteChange? && Enabled(cfg, s, change)
    && var s' := Apply(cfg, s, change);
    && removal.Advance? && removal.actor == Job(id) && Enabled(cfg, s', removal)
    && key in s'.remote && s'.remote[key] == content && key !in Apply(cfg, s', removal).remote
    && !IsChecked(s', key, pc.canonical, pc.hash)
  }

  // The file at the path is replaced, and the replacement goes.
  lemma ReplacedFileGoes(cfg: Config, s: State, id: nat, content: string)
    requires TreeLike(s.remote) && ChecksOut(s, id) && content != s.threads[Job(id)].pc.hash
    ensures var pc := s.threads[Job(id)].pc; var path := (HostOf(s, s.threads[Job(id)]), pc.canonical);
      LosesUnchecked(cfg, s, id, RemoteChange(s.remote[path := content]),
                     Advance(Job(id), Removal(true, {pc.canonical})), path, content)
  {
    var pc, path := s.threads[Job(id)].pc, (HostOf(s, s.threads[Job(id)]), s.threads[Job(id)].pc.canonical);
    var removal := Removal(true, {pc.canonical});
    var s' := Apply(cfg, s, RemoteChange(s.remote[path := content]));
    assert path in Gone(s', s'.threads[Job(id)], removal);
  }

  // The path becomes a directory, and what is in it goes.
  lemma DirectoryGoes(cfg: Config, s: State, id: nat, name: char, content: string)
    requires TreeLike(s.remote) && ChecksOut(s, id) && name != '/' && name != '.'
    ensures var pc := s.threads[Job(id)].pc; var host := HostOf(s, s.threads[Job(id)]);
      var inside := pc.canonical + "/" + [name];
      LosesUnchecked(cfg, s, id, RemoteChange(MadeDirectory(s.remote, host, pc.canonical, inside, content)),
                     Advance(Job(id), Removal(true, {inside})), (host, inside), content)
  {
    var host, path := HostOf(s, s.threads[Job(id)]), s.threads[Job(id)].pc.canonical;
    var inside := path + "/" + [name];
    StaysTree(s.remote, host, path, name, content);
    OnlyInside(s.remote, host, path, name, content);
    OneFileGoes(cfg, s, id, MadeDirectory(s.remote, host, path, inside, content), inside);
  }

  // The path is a directory with one file in it.
  ghost predicate HasOnly(remote: map<(string, string), string>, host: string, path: string, inside: string) {
    && inside != path && UnderRoot(inside, path) && (host, inside) in remote
    && forall k :: k in remote && k.0 == host && UnderRoot(k.1, path) ==> k.1 == inside
  }

  lemma OneFileGoes(cfg: Config, s: State, id: nat, remote: map<(string, string), string>, inside: string)
    requires ChecksOut(s, id) && TreeLike(remote)
    requires HasOnly(remote, HostOf(s, s.threads[Job(id)]), s.threads[Job(id)].pc.canonical, inside)
    ensures LosesUnchecked(cfg, s, id, RemoteChange(remote), Advance(Job(id), Removal(true, {inside})),
                           (HostOf(s, s.threads[Job(id)]), inside), remote[(HostOf(s, s.threads[Job(id)]), inside)])
  {
    var s' := Apply(cfg, s, RemoteChange(remote));
    assert (HostOf(s, s.threads[Job(id)]), inside) in Gone(s', s'.threads[Job(id)], Removal(true, {inside}));
  }

  function MadeDirectory(remote: map<(string, string), string>, host: string, path: string, inside: string,
                         content: string): map<(string, string), string>
  {
    (remote - {(host, path)})[(host, inside) := content]
  }

  lemma OnlyInside(remote: map<(string, string), string>, host: string, path: string, name: char, content: string)
    requires TreeLike(remote) && (host, path) in remote
    ensures var inside := path + "/" + [name];
      HasOnly(MadeDirectory(remote, host, path, inside, content), host, path, inside)
  {}

  lemma StaysTree(remote: map<(string, string), string>, host: string, path: string, name: char, content: string)
    requires TreeLike(remote) && (host, path) in remote && name != '/'
    ensures TreeLike(MadeDirectory(remote, host, path, path + "/" + [name], content))
  {
    var inside := (host, path + "/" + [name]);
    var made := MadeDirectory(remote, host, path, inside.1, content);
    forall k, l | k in made && l in made && k.0 == l.0 && UnderRoot(k.1, l.1) ensures k == l {
      if k == inside && l != inside {
        AboveInside(path, name, l.1);
      } else if l == inside && k != inside {
        BelowIsUnder(k.1, inside.1, path);
      }
    }
  }

  lemma AboveInside(path: string, name: char, above: string)
    requires name != '/' && UnderRoot(path + "/" + [name], above) && above != path + "/" + [name]
    ensures UnderRoot(path, above)
  {
    var inside := path + "/" + [name];
    assert (above + "/")[|above|] == inside[|above|] == '/';
    assert above == inside[..|above|];
    if |above| < |path| {
      assert above + "/" == path[..|above| + 1];
    }
  }

  // No answer to a call of the deletion changes the row: not DELETED,
  // ALREADY_GONE, ABORTED, nor a playbook that could not be run, nor a call that
  // raises. (What the handler of a raised call writes later is a step of its own.)
  lemma DeletionNeverTouchesVerdict(cfg: Config, r: Run, k: nat, id: nat)
    requires r.Valid(cfg) && k < |r.steps| && MovesThread(r.steps[k], Job(id))
    requires Job(id) in r.states[k].threads && InDeletion(r.states[k].threads[Job(id)].pc)
    ensures id < |r.states[k].entries| && id < |r.states[k + 1].entries|
    ensures r.states[k + 1].entries[id].row == r.states[k].entries[id].row
    ensures r.states[k + 1].entries[id].results == r.states[k].entries[id].results
  {
    PlacedAt(cfg, r, k, Job(id));
    assert r.Follows(cfg, k);
    MovedRowOnly(cfg, r.states[k], Job(id), r.steps[k].answer, id);
    DeletionAnswer(cfg, r.states[k].threads[Job(id)], r.states[k].entries[id], r.steps[k].answer);
  }

  lemma DeletionAnswer(cfg: Config, t: Thread, e: Entry, a: Answer)
    requires InDeletion(t.pc) && AnswerFits(t, e, a)
    ensures Advanced(cfg, t, e, a).1.row == e.row && Advanced(cfg, t, e, a).1.results == e.results
  {}

  // The deletion always works with the hash of the row, on a row that is not
  // allowed, for a file that lives on a Nextcloud host.
  lemma DeletionUsesTheRowsHash(cfg: Config, r: Run, k: nat, id: nat)
    requires r.Valid(cfg) && k < |r.states|
    requires Job(id) in r.states[k].threads && Deleting(r.states[k].threads[Job(id)].pc)
    ensures id < |r.states[k].entries|
    ensures var row := r.states[k].entries[id].row;
      && DeleteHash(r.states[k].threads[Job(id)].pc) == row.sha256 && row.allowed == Some(false)
      && row.mode == AnsibleFetch
      && r.states[k].entries[id].hashedAtScan == Some(row.sha256)
  {
    ReachableInv(cfg, r, k);
    var s := r.states[k];
    assert Placed(s.entries, Job(id), s.threads[Job(id)]);
    assert EntryOk(s.entries[id]);
  }
}
