/** The service account, role and role binding that every controller makes sure of before it creates a Job.
 *  One cluster role binding serves all namespaces, and all controllers append to its subjects.
 */
module JobRbac {
  const SERVICE_ACCOUNT := "ServiceAccount"

  datatype Subject = Subject(kind: string, name: string, namespace: string)

  /** versions: every list of subjects the binding has had; none before it exists. */
  datatype Store = Store(accounts: set<(string, string)>, role: bool, versions: seq<seq<Subject>>)

  /** What some Ensure, of whatever controller and namespace, commits. Bind creates the binding or appends
   *  to the subjects it has. */
  datatype Action = MakeAccount(name: string, namespace: string) | MakeRole | Bind(name: string, namespace: string)

  function Subjects(s: Store): seq<Subject> {
    if s.versions == [] then [] else s.versions[|s.versions| - 1]
  }

  /** The comparison the code makes: the kind does not count. */
  predicate Has(subjects: seq<Subject>, name: string, namespace: string) {
    exists i :: 0 <= i < |subjects| && subjects[i].name == name && subjects[i].namespace == namespace
  }

  ghost predicate Enabled(s: Store, a: Action) {
    a.Bind? ==> !Has(Subjects(s), a.name, a.namespace)
  }

  function Apply(s: Store, a: Action): Store {
    match a
    case MakeAccount(n, ns) => s.(accounts := s.accounts + {(n, ns)})
    case MakeRole => s.(role := true)
    case Bind(n, ns) => s.(versions := s.versions + [Subjects(s) + [Subject(SERVICE_ACCOUNT, n, ns)]])
  }

  /** The store after some actions, each of which had to be enabled. */
  ghost predicate Leads(s: Store, actions: seq<Action>, t: Store)
    decreases |actions|
  {
    if actions == [] then t == s
    else
      var a := actions[0];
      Enabled(s, a) && Leads(Apply(s, a), actions[1..], t)
  }

  lemma {:induction false} LeadsFurther(s: Store, actions: seq<Action>, t: Store, a: Action)
    requires Leads(s, actions, t) && Enabled(t, a)
    ensures Leads(s, actions + [a], Apply(t, a))
    decreases |actions|
  {
    if actions == [] {
      assert [a][1..] == [];
    } else {
      LeadsFurther(Apply(s, actions[0]), actions[1..], t, a);
      assert (actions + [a])[1..] == actions[1..] + [a];
    }
  }

  ghost predicate NoDuplicates(subjects: seq<Subject>) {
    forall i, j :: 0 <= i < j < |subjects| ==>
      subjects[i].name != subjects[j].name || subjects[i].namespace != subjects[j].namespace
  }

  /** Whatever the interleaving, the list of subjects only grows at its end: every version begins with all
   *  versions before it. */
  lemma {:induction false} SubjectsOnlyGrow(s: Store, actions: seq<Action>, t: Store)
    requires Leads(s, actions, t)
    ensures s.versions <= t.versions && s.accounts <= t.accounts && (s.role ==> t.role)
    ensures forall i :: |s.versions| <= i < |t.versions| ==> Subjects(s) <= t.versions[i]
    ensures forall i, j :: |s.versions| <= i <= j < |t.versions| ==> t.versions[i] <= t.versions[j]
    decreases |actions|
  {
    if actions != [] {
      var u := Apply(s, actions[0]);
      SubjectsOnlyGrow(u, actions[1..], t);
      if actions[0].Bind? {
        assert t.versions[|s.versions|] == Subjects(u);
        assert Subjects(s) <= Subjects(u);
      }
    }
  }

  /** Whatever version a cache may still show is the beginning of the present list. */
  lemma EarlierIsPrefix(s: Store, actions: seq<Action>, t: Store, i: nat)
    requires Leads(s, actions, t) && |s.versions| <= 1 && i < |t.versions|
    ensures t.versions[i] <= Subjects(t)
  {
    SubjectsOnlyGrow(s, actions, t);
    assert i < |s.versions| ==> t.versions[i] == Subjects(s);
  }

  /** No version ever names an account twice, if the binding found at the start does not. */
  lemma {:induction false} NeverDuplicated(s: Store, actions: seq<Action>, t: Store)
    requires Leads(s, actions, t) && NoDuplicates(Subjects(s))
    ensures forall i :: |s.versions| <= i < |t.versions| ==> NoDuplicates(t.versions[i])
    decreases |actions|
  {
    if actions != [] {
      var u := Apply(s, actions[0]);
      NeverDuplicated(u, actions[1..], t);
      SubjectsOnlyGrow(u, actions[1..], t);
    }
  }

  /** A subject that is there stays there. */
  lemma OnceBoundForever(s: Store, actions: seq<Action>, t: Store, name: string, namespace: string)
    requires Leads(s, actions, t) && Has(Subjects(s), name, namespace)
    ensures Has(Subjects(t), name, namespace)
  {
    SubjectsOnlyGrow(s, actions, t);
    var i :| 0 <= i < |Subjects(s)| && Subjects(s)[i].name == name && Subjects(s)[i].namespace == namespace;
    assert Subjects(t)[i] == Subjects(s)[i];
  }

  /** A subject that was not in the original binding is a service account. */
  lemma {:induction false} NewSubjectsAreAccounts(s: Store, actions: seq<Action>, t: Store, i: nat)
    requires Leads(s, actions, t) && |Subjects(s)| <= i < |Subjects(t)|
    ensures Subjects(t)[i].kind == SERVICE_ACCOUNT
    decreases |actions|
  {
    if actions != [] {
      var u := Apply(s, actions[0]);
      SubjectsOnlyGrow(u, actions[1..], t);
      if i < |Subjects(u)| {
        assert Subjects(u) <= Subjects(t);
      } else {
        NewSubjectsAreAccounts(u, actions[1..], t, i);
      }
    }
  }

  /** What a successful Ensure is worth: the list names the account, and the entry is one of kind
   *  ServiceAccount exactly if the original binding did not already use name and namespace for subjects of
   *  other kinds only. */
  lemma {:induction false} BoundUnlessForeign(s: Store, actions: seq<Action>, t: Store, name: string, namespace: string)
    requires Leads(s, actions, t) && Has(Subjects(t), name, namespace)
    ensures Subject(SERVICE_ACCOUNT, name, namespace) in Subjects(t) <==>
            (Subject(SERVICE_ACCOUNT, name, namespace) in Subjects(s) || !Has(Subjects(s), name, namespace))
    decreases |actions|
  {
    var exact := Subject(SERVICE_ACCOUNT, name, namespace);
    SubjectsOnlyGrow(s, actions, t);
    if !Has(Subjects(s), name, namespace) {
      var i :| 0 <= i < |Subjects(t)| && Subjects(t)[i].name == name && Subjects(t)[i].namespace == namespace;
      assert i < |Subjects(s)| ==> Subjects(s)[i] == Subjects(t)[i];
      NewSubjectsAreAccounts(s, actions, t, i);
      assert Subjects(t)[i] == exact;
    } else if exact !in Subjects(s) && actions != [] {
      var u := Apply(s, actions[0]);
      OnceBoundForever(s, actions[..1], u, name, namespace) by { assert actions[..1][1..] == []; }
      if actions[0].Bind? {
        assert Subjects(u) == Subjects(s) + [Subject(SERVICE_ACCOUNT, actions[0].name, actions[0].namespace)];
      }
      BoundUnlessForeign(u, actions[1..], t, name, namespace);
    }
  }

  /***** The server and the code *****/

  /** A reliable server refuses nothing, its caches do not lag, and nobody else ensures anything meanwhile. */
  class Server {
    const reliable: bool
    ghost const start: Store
    ghost var actions: seq<Action>
    var store: Store

    ghost predicate Valid()
      reads this
    {
      Leads(start, actions, store) && |start.versions| <= 1
    }

    constructor (store: Store, reliable: bool)
      requires |store.versions| <= 1
      ensures Valid() && this.reliable == reliable && this.start == store && this.store == store && actions == []
    {
      this.reliable := reliable;
      this.start := store;
      this.store := store;
      this.actions := [];
    }

    method Commit(a: Action)
      requires Valid() && Enabled(store, a)
      modifies this
      ensures Valid() && store == Apply(old(store), a)
      ensures Later(old(store), store)
    {
      LeadsFurther(start, actions, store, a);
      SubjectsOnlyGrow(store, [a], Apply(store, a)) by { assert [a][1..] == []; }
      actions := actions + [a];
      store := Apply(store, a);
    }

    /** Other controllers and namespaces ensure as well. */
    method Interfere()
      requires Valid()
      modifies this
      ensures Valid() && Later(old(store), store)
      ensures reliable ==> store == old(store)
    {
      if reliable { return; }
      var fuel: nat := *;
      while fuel > 0
        invariant Valid() && Later(old(store), store)
      {
        var a: Action := *;
        var bound := a.Bind? && Has(Subjects(store), a.name, a.namespace);
        if !bound { Commit(a); }
        fuel := fuel - 1;
      }
    }

    method Fault() returns (f: bool)
      ensures reliable ==> !f
    {
      f := *;
      f := f && !reliable;
    }

    /** A committed write, unless it fails; also a committed write may come back as an error. */
    method Write(a: Action) returns (ok: bool)
      requires Valid() && Enabled(store, a)
      modifies this
      ensures Valid() && Later(old(store), store)
      ensures ok ==> store == Apply(old(store), a)
      ensures reliable ==> ok
    {
      var fault := Fault();
      if fault { return false; }
      Commit(a);
      var lost := Fault();
      ok := !lost;
    }

    method CreateBinding(subjects: seq<Subject>) returns (ok: bool)
      requires Valid() && |subjects| == 1 && subjects[0].kind == SERVICE_ACCOUNT
      modifies this
      ensures Valid() && Later(old(store), store)
      ensures ok ==> Subjects(store) == subjects
      ensures reliable && old(store).versions == [] ==>
                ok && store == Apply(old(store), Bind(subjects[0].name, subjects[0].namespace))
    {
      Interfere();
      if store.versions != [] { return false; }  // AlreadyExists
      ok := Write(Bind(subjects[0].name, subjects[0].namespace));
    }

    /** Optimistic: seen is the version on which the list of subjects is based. */
    method UpdateBinding(seen: nat, subjects: seq<Subject>) returns (ok: bool)
      requires Valid() && 0 < seen <= |store.versions| && subjects != []
      requires var last := subjects[|subjects| - 1];
               && subjects == store.versions[seen - 1] + [Subject(SERVICE_ACCOUNT, last.name, last.namespace)]
               && !Has(store.versions[seen - 1], last.name, last.namespace)
      modifies this
      ensures Valid() && Later(old(store), store)
      ensures ok ==> Subjects(store) == subjects
      ensures reliable && seen == |old(store).versions| ==>
                ok && store == Apply(old(store), Bind(subjects[|subjects| - 1].name, subjects[|subjects| - 1].namespace))
    {
      Interfere();
      if seen != |store.versions| { return false; }  // Conflict
      ok := Write(Bind(subjects[|subjects| - 1].name, subjects[|subjects| - 1].namespace));
    }
  }

  /** What may be relied on from one moment to a later one. */
  predicate Later(s: Store, t: Store) {
    && s.versions <= t.versions && s.accounts <= t.accounts && (s.role ==> t.role)
    && Subjects(s) <= Subjects(t)
  }

  class JobRbac {
    const api: Server
    const namespace: string
    const serviceAccount: string

    constructor (api: Server, namespace: string, serviceAccount: string)
      ensures this.api == api && this.namespace == namespace && this.serviceAccount == serviceAccount
    {
      this.api := api;
      this.namespace := namespace;
      this.serviceAccount := serviceAccount;
    }

    /** Reads are cached: absence may be out of date, presence never is, as nothing is deleted. */
    method EnsureServiceAccount() returns (ok: bool)
      requires api.Valid()
      modifies api
      ensures api.Valid() && Later(old(api.store), api.store)
      ensures ok ==> (serviceAccount, namespace) in api.store.accounts
      ensures api.reliable ==> ok && api.store == Apply(old(api.store), MakeAccount(serviceAccount, namespace))
    {
      api.Interfere();
      var fault := api.Fault();
      var lag := api.Fault();
      if fault { return false; }
      if (serviceAccount, namespace) in api.store.accounts && !lag { return true; }
      api.Interfere();
      if (serviceAccount, namespace) in api.store.accounts { return false; }  // AlreadyExists
      ok := api.Write(MakeAccount(serviceAccount, namespace));
    }

    method EnsureRole() returns (ok: bool)
      requires api.Valid()
      modifies api
      ensures api.Valid() && Later(old(api.store), api.store)
      ensures ok ==> api.store.role
      ensures api.reliable ==> ok && api.store == Apply(old(api.store), MakeRole)
    {
      api.Interfere();
      var fault := api.Fault();
      var lag := api.Fault();
      if fault { return false; }
      if api.store.role && !lag { return true; }
      api.Interfere();
      if api.store.role { return false; }
      ok := api.Write(MakeRole);
    }

    /** The binding is read through the cache, at any earlier version; the update carries that version. */
    method EnsureRoleBinding() returns (ok: bool)
      requires api.Valid()
      modifies api
      ensures api.Valid() && Later(old(api.store), api.store)
      ensures ok ==> Has(Subjects(api.store), serviceAccount, namespace)
      ensures api.reliable ==>
                && ok
                && api.store == if Has(Subjects(old(api.store)), serviceAccount, namespace) then old(api.store)
                                else Apply(old(api.store), Bind(serviceAccount, namespace))
    {
      api.Interfere();
      var fault := api.Fault();
      if fault { return false; }
      var lagging: int := *;
      var seen := |api.store.versions|;
      if !api.reliable && 0 <= lagging < seen { seen := lagging; }
      if seen == 0 {
        ok := api.CreateBinding([Subject(SERVICE_ACCOUNT, serviceAccount, namespace)]);
        return;
      }
      var subjects := api.store.versions[seen - 1];
      var existServiceAccount := false;
      for i := 0 to |subjects|
        invariant existServiceAccount <==>
                    exists j :: 0 <= j < i && subjects[j].name == serviceAccount && subjects[j].namespace == namespace
      {
        if subjects[i].name == serviceAccount && subjects[i].namespace == namespace {
          existServiceAccount := true;
        }
      }
      if !existServiceAccount {
        subjects := subjects + [Subject(SERVICE_ACCOUNT, serviceAccount, namespace)];
        ok := api.UpdateBinding(seen, subjects);
        return;
      }
      EarlierIsPrefix(api.start, api.actions, api.store, seen - 1);
      return true;
    }

    /** Once this returns true, account, role and subject are there; and the subject is the service account
     *  itself unless the original binding used its name and namespace for something else. */
    method Ensure() returns (ok: bool)
      requires api.Valid()
      modifies api
      ensures api.Valid() && Later(old(api.store), api.store)
      ensures ok ==> (serviceAccount, namespace) in api.store.accounts && api.store.role
      ensures ok ==>
                exists i :: && 0 <= i < |Subjects(api.store)| && Subjects(api.store)[i].name == serviceAccount
                            && Subjects(api.store)[i].namespace == namespace
      ensures ok ==>
                (Subject("ServiceAccount", serviceAccount, namespace) in Subjects(api.store) <==>
                  || Subject("ServiceAccount", serviceAccount, namespace) in Subjects(api.start)
                  || forall i :: 0 <= i < |Subjects(api.start)| ==>
                       Subjects(api.start)[i].name != serviceAccount || Subjects(api.start)[i].namespace != namespace)
      ensures api.reliable ==>
                && ok && api.store.accounts == old(api.store).accounts + {(serviceAccount, namespace)}
                && api.store.versions ==
                     if exists i :: && 0 <= i < |Subjects(old(api.store))|
                                    && Subjects(old(api.store))[i].name == serviceAccount
                                    && Subjects(old(api.store))[i].namespace == namespace
                     then old(api.store).versions
                     else old(api.store).versions +
                          [Subjects(old(api.store)) + [Subject("ServiceAccount", serviceAccount, namespace)]]
    {
      ok := EnsureServiceAccount();
      if !ok { return; }
      ok := EnsureRole();
      if !ok { return; }
      ok := EnsureRoleBinding();
      if ok { BoundUnlessForeign(api.start, api.actions, api.store, serviceAccount, namespace); }
    }
  }
}
