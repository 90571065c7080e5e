/**
 * agent/watch.go and the local_ips updates of agent/main.go: taps come and go, and the kernel's set of
 * local addresses must follow. Results of netlink, attach, socket and map calls are inputs.
 */
module Taps {
  import opened Wire
  import opened Address

  datatype Port = Port(name: string, ips: seq<IP>)

  /** How attaching one port went: not at all, without a responder, or with its addresses written up to a failure. */
  datatype Attempt = AttachFails | NoResponder | PutFails(after: nat) | Succeeds

  /** `tapAttachment`: whether a responder runs, and the addresses to remove on detach. */
  datatype Attachment = Attachment(responding: bool, ips: seq<IP>)

  type Attached = map<string, Attachment>

  /** The manager's table and the kernel's local_ips keys. */
  datatype State = State(attached: Attached, local: set<Addr16>)

  /** The keys registered for attached taps. */
  function Owned(m: Attached): set<Addr16> {
    set name, k | name in m && k in KernelKeys(m[name].ips) :: k
  }

  function Names(ports: seq<Port>): set<string> {
    set i | 0 <= i < |ports| :: ports[i].name
  }

  // ---- one scan, as a function ----

  /** A port that is new, or the state unchanged when it is already attached or cannot be. */
  function AttachOne(respond: bool, s: State, p: Port, r: Attempt): State {
    if p.name in s.attached || r == AttachFails then s
    else if !respond || |p.ips| == 0 || r == NoResponder then
      s.(attached := s.attached[p.name := Attachment(false, [])])
    else if r.PutFails? && r.after < |p.ips| then
      State(s.attached[p.name := Attachment(true, [])], s.local + KernelKeys(p.ips[..r.after]))
    else
      State(s.attached[p.name := Attachment(true, p.ips)], s.local + KernelKeys(p.ips))
  }

  function AttachAll(respond: bool, s: State, ports: seq<Port>, rs: seq<Attempt>): State
    requires |ports| == |rs|
  {
    if ports == [] then s
    else
      var n := |ports| - 1;
      AttachOne(respond, AttachAll(respond, s, ports[..n], rs[..n]), ports[n], rs[n])
  }

  function Without(m: Attached, gone: set<string>): Attached {
    map name | name in m && name !in gone :: m[name]
  }

  function Only(m: Attached, names: set<string>): Attached {
    map name | name in m && name in names :: m[name]
  }

  function DetachAll(s: State, gone: set<string>): State {
    State(Without(s.attached, gone), s.local - Owned(Only(s.attached, gone)))
  }

  function Reconciled(respond: bool, s: State, ports: seq<Port>, rs: seq<Attempt>): State
    requires |ports| == |rs|
  {
    var t := AttachAll(respond, s, ports, rs);
    DetachAll(t, t.attached.Keys - Names(ports))
  }

  // ---- the manager ----

  class TapManager {
    const respond: bool
    var attached: Attached
    var localIps: set<Addr16>

    constructor (respond: bool, fixed: seq<IP>)
      ensures this.respond == respond && Now() == State(map[], KernelKeys(fixed))
    {
      this.respond, attached, localIps := respond, map[], KernelKeys(fixed);
    }

    function Now(): State
      reads this
    {
      State(attached, localIps)
    }

    /** `addLocalIPs`: stops at the first Put that fails. */
    method AddLocalIPs(ips: seq<IP>, failsAfter: Option<nat>) returns (ok: bool)
      modifies this`localIps
      ensures ok <==> failsAfter.None? || failsAfter.value >= |ips|
      ensures localIps == old(localIps) + KernelKeys(if ok then ips else ips[..failsAfter.value])
    {
      for i := 0 to |ips|
        invariant failsAfter.Some? ==> i <= failsAfter.value
        invariant localIps == old(localIps) + KernelKeys(ips[..i])
      {
        if failsAfter == Some(i) { return false; }
        localIps := localIps + {KernelKey(ips[i])};
        KeysStep(ips, i);
      }
      assert ips[..|ips|] == ips;
      ok := true;
    }

    /** `delLocalIPs`. */
    method DelLocalIPs(ips: seq<IP>)
      modifies this`localIps
      ensures localIps == old(localIps) - KernelKeys(ips)
    {
      for i := 0 to |ips|
        invariant localIps == old(localIps) - KernelKeys(ips[..i])
      {
        localIps := localIps - {KernelKey(ips[i])};
        KeysStep(ips, i);
      }
      assert ips[..|ips|] == ips;
    }

    method AttachLocked(p: Port, r: Attempt) returns (err: bool)
      requires p.name !in attached
      modifies this`attached, this`localIps
      ensures Now() == AttachOne(respond, old(Now()), p, r)
    {
      if r == AttachFails { return true; }
      var att := Attachment(false, []);
      if respond && |p.ips| > 0 && r != NoResponder {
        att := Attachment(true, []);
        var ok := AddLocalIPs(p.ips, if r.PutFails? then Some(r.after) else None);
        if ok {
          att := Attachment(true, p.ips);
        }
      }
      attached := attached[p.name := att];
      err := false;
    }

    method DetachLocked(name: string)
      modifies this`attached, this`localIps
      ensures Now() == DetachAll(old(Now()), {name})
    {
      ghost var before := Now();
      DetachOne(before, name);
      if name !in attached { return; }
      var att := attached[name];
      if |att.ips| > 0 {
        DelLocalIPs(att.ips);
      }
      attached := attached - {name};
    }

    /** The detach loop of `reconcile` and `closeAll`, in whatever order the map yields names. */
    method DetachEach(gone: set<string>)
      modifies this`attached, this`localIps
      ensures Now() == DetachAll(old(Now()), gone)
    {
      hide DetachAll;
      ghost var before := Now();
      var todo := gone;
      NothingDetached(before);
      assert gone - gone == {};
      while todo != {}
        invariant todo <= gone
        invariant Now() == DetachAll(before, gone - todo)
      {
        var name :| name in todo;
        DetachTwice(before, gone - todo, name);
        DetachLocked(name);
        assert gone - (todo - {name}) == gone - todo + {name};
        todo := todo - {name};
      }
      assert gone - {} == gone;
    }

    /** `reconcile`. */
    method Reconcile(ports: seq<Port>, rs: seq<Attempt>)
      requires |ports| == |rs|
      modifies this`attached, this`localIps
      ensures Now() == Reconciled(respond, old(Now()), ports, rs)
    {
      hide DetachAll, AttachOne;
      ghost var before := Now();
      var seen: set<string> := {};
      for i := 0 to |ports|
        invariant Now() == AttachAll(respond, before, ports[..i], rs[..i])
        invariant seen == Names(ports[..i])
      {
        seen := seen + {ports[i].name};
        NamesStep(ports, i);
        assert ports[..i + 1][..i] == ports[..i] && rs[..i + 1][..i] == rs[..i];
        if ports[i].name in attached {
          AttachOneOld(respond, Now(), ports[i], rs[i]);
        } else {
          var _ := AttachLocked(ports[i], rs[i]);
        }
      }
      assert ports[..|ports|] == ports && rs[..|ports|] == rs;
      DetachEach(attached.Keys - seen);
    }

    method CloseAll()
      modifies this`attached, this`localIps
      ensures attached == map[] && localIps == old(localIps) - Owned(old(attached))
    {
      ghost var before := attached;
      DetachEach(attached.Keys);
      assert Only(before, before.Keys) == before;
      assert Without(before, before.Keys) == map[];
    }
  }

  lemma KeysStep(ips: seq<IP>, i: nat)
    requires i < |ips|
    ensures KernelKeys(ips[..i + 1]) == KernelKeys(ips[..i]) + {KernelKey(ips[i])}
  {
    assert forall j :: 0 <= j < i ==> ips[..i + 1][j] == ips[..i][j];
    assert ips[..i + 1][i] == ips[i];
  }

  lemma NamesStep(ports: seq<Port>, i: nat)
    requires i < |ports|
    ensures Names(ports[..i + 1]) == Names(ports[..i]) + {ports[i].name}
  {
    assert forall j :: 0 <= j < i ==> ports[..i + 1][j] == ports[..i][j];
    assert ports[..i + 1][i] == ports[i];
  }

  lemma DetachOne(s: State, name: string)
    ensures DetachAll(s, {name}) ==
            if name !in s.attached then s else State(s.attached - {name}, s.local - KernelKeys(s.attached[name].ips))
  {
    assert Without(s.attached, {name}) == s.attached - {name};
    if name !in s.attached {
      assert s.attached - {name} == s.attached;
      assert Only(s.attached, {name}) == map[];
    } else {
      var only := Only(s.attached, {name});
      assert only.Keys == {name} && only[name] == s.attached[name];
      assert forall k :: k in KernelKeys(only[name].ips) ==> k in Owned(only);
    }
  }

  lemma NothingDetached(s: State)
    ensures DetachAll(s, {}) == s
  {
    assert Without(s.attached, {}) == s.attached;
    assert Only(s.attached, {}) == map[];
  }

  lemma DetachTwice(s: State, done: set<string>, name: string)
    requires name !in done
    ensures DetachAll(DetachAll(s, done), {name}) == DetachAll(s, done + {name})
  {
    hide KernelKeys;
    var t := DetachAll(s, done);
    assert Without(t.attached, {name}) == Without(s.attached, done + {name});
    assert Owned(Only(s.attached, done + {name})) == Owned(Only(s.attached, done)) + Owned(Only(t.attached, {name}));
  }

  // ---- what a scan keeps ----

  /** The kernel's set is what the static list and the attached taps own. */
  predicate Follows(s: State, fixed: set<Addr16>) {
    s.local == fixed + Owned(s.attached)
  }

  /** Listing `i` is the one that attaches its port: not attached before, and every earlier try of the name failed. */
  predicate Takes(s: State, ports: seq<Port>, rs: seq<Attempt>, i: nat)
    requires i < |ports| == |rs|
  {
    && ports[i].name !in s.attached
    && rs[i] != AttachFails
    && forall j :: 0 <= j < i && ports[j].name == ports[i].name ==> rs[j] == AttachFails
  }

  /** The responder runs and its addresses are written, up to a failure. */
  predicate Writes(respond: bool, p: Port, r: Attempt) {
    respond && |p.ips| > 0 && r != AttachFails && r != NoResponder
  }

  predicate Breaks(p: Port, r: Attempt) {
    r.PutFails? && r.after < |p.ips|
  }

  /** The names some listing managed to attach. */
  function Attempted(ports: seq<Port>, rs: seq<Attempt>): set<string>
    requires |ports| == |rs|
  {
    set i | 0 <= i < |ports| && rs[i] != AttachFails :: ports[i].name
  }

  /** The keys of new ports all of whose writes succeed. */
  function Registered(respond: bool, s: State, ports: seq<Port>, rs: seq<Attempt>): set<Addr16>
    requires |ports| == |rs|
  {
    set i, k | 0 <= i < |ports| && k in NewKeys(respond, s, ports, rs, i) :: k
  }

  function NewKeys(respond: bool, s: State, ports: seq<Port>, rs: seq<Attempt>, i: nat): set<Addr16>
    requires i < |ports| == |rs|
  {
    if Takes(s, ports, rs, i) && Writes(respond, ports[i], rs[i]) && !Breaks(ports[i], rs[i])
    then KernelKeys(ports[i].ips) else {}
  }

  /** The keys written for new ports before a write failed. */
  function Leaked(respond: bool, s: State, ports: seq<Port>, rs: seq<Attempt>): set<Addr16>
    requires |ports| == |rs|
  {
    set i, k | 0 <= i < |ports| && k in LostKeys(respond, s, ports, rs, i) :: k
  }

  function LostKeys(respond: bool, s: State, ports: seq<Port>, rs: seq<Attempt>, i: nat): set<Addr16>
    requires i < |ports| == |rs|
  {
    if Takes(s, ports, rs, i) && Writes(respond, ports[i], rs[i]) && Breaks(ports[i], rs[i])
    then KernelKeys(ports[i].ips[..rs[i].after]) else {}
  }

  /** The keys of the taps a scan no longer lists. */
  function Gone(s: State, ports: seq<Port>): set<Addr16> {
    Owned(Without(s.attached, Names(ports)))
  }

  /** The keys that should be registered after the scan: of the taps kept and of the new ones. */
  function Wanted(respond: bool, s: State, ports: seq<Port>, rs: seq<Attempt>): set<Addr16>
    requires |ports| == |rs|
  {
    Owned(Only(s.attached, Names(ports))) + Registered(respond, s, ports, rs)
  }

  lemma OwnedAdd(m: Attached, name: string, a: Attachment)
    requires name !in m
    ensures Owned(m[name := a]) == Owned(m) + KernelKeys(a.ips)
  {
    hide KernelKeys;
    var n := m[name := a];
    assert forall x :: x in m ==> n[x] == m[x];
    assert n[name] == a;
    forall k | k in Owned(m) + KernelKeys(a.ips) ensures k in Owned(n) {
      if k in KernelKeys(a.ips) {
        assert name in n && k in KernelKeys(n[name].ips);
      }
    }
  }

  lemma NoKeys()
    ensures KernelKeys([]) == {}
  {
  }

  lemma OwnedSplits(m: Attached, gone: set<string>)
    ensures Owned(m) == Owned(Without(m, gone)) + Owned(Only(m, gone))
  {
    hide KernelKeys;
    assert forall name :: name in m ==> name in Without(m, gone) || name in Only(m, gone);
    forall k | k in Owned(m) ensures k in Owned(Without(m, gone)) || k in Owned(Only(m, gone)) {
      var name :| name in m && k in KernelKeys(m[name].ips);
      if name in gone {
        assert Only(m, gone)[name] == m[name];
      } else {
        assert Without(m, gone)[name] == m[name];
      }
    }
  }

  /** One more listing adds its name and its keys. */
  lemma ListingStep(respond: bool, s: State, ports: seq<Port>, rs: seq<Attempt>, n: nat)
    requires n < |ports| == |rs|
    ensures Attempted(ports[..n + 1], rs[..n + 1]) ==
            Attempted(ports[..n], rs[..n]) + if rs[n] != AttachFails then {ports[n].name} else {}
    ensures Registered(respond, s, ports[..n + 1], rs[..n + 1]) ==
            Registered(respond, s, ports[..n], rs[..n]) + NewKeys(respond, s, ports, rs, n)
    ensures Leaked(respond, s, ports[..n + 1], rs[..n + 1]) ==
            Leaked(respond, s, ports[..n], rs[..n]) + LostKeys(respond, s, ports, rs, n)
  {
    hide KernelKeys, NewKeys, LostKeys;
    var p, q, x, y := ports[..n], ports[..n + 1], rs[..n], rs[..n + 1];
    forall i | 0 <= i <= n
      ensures i < n ==> NewKeys(respond, s, p, x, i) == NewKeys(respond, s, ports, rs, i)
      ensures NewKeys(respond, s, q, y, i) == NewKeys(respond, s, ports, rs, i)
      ensures i < n ==> LostKeys(respond, s, p, x, i) == LostKeys(respond, s, ports, rs, i)
      ensures LostKeys(respond, s, q, y, i) == LostKeys(respond, s, ports, rs, i)
    {
      ListingPrefix(respond, s, ports, rs, i, n + 1);
      if i < n {
        ListingPrefix(respond, s, ports, rs, i, n);
      }
    }
    AttemptedStep(ports, rs, n);
  }

  lemma AttemptedStep(ports: seq<Port>, rs: seq<Attempt>, n: nat)
    requires n < |ports| == |rs|
    ensures Attempted(ports[..n + 1], rs[..n + 1]) ==
            Attempted(ports[..n], rs[..n]) + if rs[n] != AttachFails then {ports[n].name} else {}
  {
    var p, q, x, y := ports[..n], ports[..n + 1], rs[..n], rs[..n + 1];
    assert q[n] == ports[n] && y[n] == rs[n];
    assert forall i :: 0 <= i < n ==> q[i] == p[i] && y[i] == x[i];
  }

  /** What a listing adds depends only on the listings up to it. */
  lemma ListingPrefix(respond: bool, s: State, ports: seq<Port>, rs: seq<Attempt>, i: nat, n: nat)
    requires i < n <= |ports| == |rs|
    ensures NewKeys(respond, s, ports[..n], rs[..n], i) == NewKeys(respond, s, ports, rs, i)
    ensures LostKeys(respond, s, ports[..n], rs[..n], i) == LostKeys(respond, s, ports, rs, i)
  {
    hide KernelKeys;
    assert ports[..n][i] == ports[i] && rs[..n][i] == rs[i];
    assert forall j :: 0 <= j < i ==> ports[..n][j] == ports[j] && rs[..n][j] == rs[j];
  }

  /** The listing attaches exactly when the name is not attached yet at that point. */
  lemma TakesNow(s: State, ports: seq<Port>, rs: seq<Attempt>, n: nat)
    requires n < |ports| == |rs|
    ensures Takes(s, ports, rs, n) <==>
            ports[n].name !in s.attached.Keys + Attempted(ports[..n], rs[..n]) && rs[n] != AttachFails
  {
    if ports[n].name in Attempted(ports[..n], rs[..n]) {
      var j :| 0 <= j < n && rs[..n][j] != AttachFails && ports[..n][j].name == ports[n].name;
      assert rs[j] != AttachFails && ports[j].name == ports[n].name;
    }
    forall j | 0 <= j < n && ports[j].name == ports[n].name && rs[j] != AttachFails
      ensures ports[n].name in Attempted(ports[..n], rs[..n])
    {
      assert ports[..n][j] == ports[j] && rs[..n][j] == rs[j];
    }
  }

  /** What attaching does to the table and to the kernel's set. */
  ghost predicate AttachEffect(
      respond: bool, s: State, ports: seq<Port>, rs: seq<Attempt>, t: State, names: set<string>)
    requires |ports| == |rs|
  {
    && t.attached.Keys == s.attached.Keys + Attempted(ports, rs)
    && (forall name :: name in s.attached ==> t.attached[name] == s.attached[name])
    && Owned(Only(t.attached, names)) ==
       Owned(Only(s.attached, names)) + Registered(respond, s, ports, rs)
    && t.local == s.local + Registered(respond, s, ports, rs) + Leaked(respond, s, ports, rs)
  }

  lemma NoListings(respond: bool, s: State)
    ensures Attempted([], []) == {} && Registered(respond, s, [], []) == {} && Leaked(respond, s, [], []) == {}
  {
  }

  lemma OnlyAdd(m: Attached, names: set<string>, name: string, a: Attachment)
    requires name !in m && name in names
    ensures Owned(Only(m[name := a], names)) == Owned(Only(m, names)) + KernelKeys(a.ips)
  {
    hide KernelKeys, Owned;
    assert Only(m[name := a], names) == Only(m, names)[name := a];
    OwnedAdd(Only(m, names), name, a);
  }

  lemma AttachOneNew(respond: bool, t: State, p: Port, r: Attempt, names: set<string>)
    requires p.name !in t.attached && r != AttachFails && p.name in names
    ensures var u := AttachOne(respond, t, p, r);
            && u.attached.Keys == t.attached.Keys + {p.name}
            && (forall name :: name in t.attached ==> u.attached[name] == t.attached[name])
            && (if !Writes(respond, p, r) then
                  Owned(Only(u.attached, names)) == Owned(Only(t.attached, names)) && u.local == t.local
                else if Breaks(p, r) then
                  && Owned(Only(u.attached, names)) == Owned(Only(t.attached, names))
                  && u.local == t.local + KernelKeys(p.ips[..r.after])
                else
                  && Owned(Only(u.attached, names)) == Owned(Only(t.attached, names)) + KernelKeys(p.ips)
                  && u.local == t.local + KernelKeys(p.ips))
  {
    hide KernelKeys, Owned, Only;
    NoKeys();
    OnlyAdd(t.attached, names, p.name, AttachOne(respond, t, p, r).attached[p.name]);
  }

  lemma AttachOneOld(respond: bool, t: State, p: Port, r: Attempt)
    requires p.name in t.attached || r == AttachFails
    ensures AttachOne(respond, t, p, r) == t
  {
  }

  /** One more listing carries the effect on. */
  lemma AttachStep(
      respond: bool, s: State, ports: seq<Port>, rs: seq<Attempt>, n: nat, t: State, names: set<string>)
    requires n < |ports| == |rs| && ports[n].name in names
    requires AttachEffect(respond, s, ports[..n], rs[..n], t, names)
    ensures AttachEffect(respond, s, ports[..n + 1], rs[..n + 1], AttachOne(respond, t, ports[n], rs[n]), names)
  {
    hide KernelKeys, Owned, Attempted, Registered, Leaked, Takes, Only, AttachOne, Writes, Breaks;
    ListingStep(respond, s, ports, rs, n);
    TakesNow(s, ports, rs, n);
    if Takes(s, ports, rs, n) {
      AttachOneNew(respond, t, ports[n], rs[n], names);
    } else {
      AttachOneOld(respond, t, ports[n], rs[n]);
    }
  }

  lemma NothingAttached(respond: bool, s: State, names: set<string>)
    ensures AttachEffect(respond, s, [], [], s, names)
  {
    hide Owned, Attempted, Registered, Leaked, Only;
    NoListings(respond, s);
  }

  lemma {:induction false} AttachesExactly(
      respond: bool, s: State, ports: seq<Port>, rs: seq<Attempt>, names: set<string>)
    requires |ports| == |rs| && Names(ports) <= names
    ensures AttachEffect(respond, s, ports, rs, AttachAll(respond, s, ports, rs), names)
  {
    hide AttachEffect, AttachOne, Names;
    if ports == [] {
      NothingAttached(respond, s, names);
    } else {
      var n := |ports| - 1;
      assert ports[..n + 1] == ports && rs[..n + 1] == rs;
      NamesStep(ports, n);
      AttachesExactly(respond, s, ports[..n], rs[..n], names);
      AttachStep(respond, s, ports, rs, n, AttachAll(respond, s, ports[..n], rs[..n]), names);
    }
  }

  lemma AttemptedListed(ports: seq<Port>, rs: seq<Attempt>)
    requires |ports| == |rs|
    ensures Attempted(ports, rs) <= Names(ports)
    ensures (forall i :: 0 <= i < |rs| ==> rs[i] != AttachFails) ==> Attempted(ports, rs) == Names(ports)
  {
  }

  /**
   * One scan, whatever attaching and writing came to: which names are attached, which keys they own and which
   * keys the kernel holds, all from the state before and the listings.
   */
  lemma ScanEffect(respond: bool, s: State, ports: seq<Port>, rs: seq<Attempt>)
    requires |ports| == |rs|
    ensures var u := Reconciled(respond, s, ports, rs);
            && u.attached.Keys == Names(ports) * (s.attached.Keys + Attempted(ports, rs))
            && Owned(u.attached) == Wanted(respond, s, ports, rs)
            && u.local == s.local + Registered(respond, s, ports, rs) + Leaked(respond, s, ports, rs) - Gone(s, ports)
  {
    hide Owned, KernelKeys, AttachAll, Names, Attempted, Registered, Leaked;
    AttachesExactly(respond, s, ports, rs, Names(ports));
    AttemptedListed(ports, rs);
    var t := AttachAll(respond, s, ports, rs);
    var gone := t.attached.Keys - Names(ports);
    assert Without(t.attached, gone) == Only(t.attached, Names(ports));
    assert Only(t.attached, gone) == Without(s.attached, Names(ports));
  }

  /**
   * Exactly when a scan leaves the kernel's set right, for every outcome of attaching and writing: no key of a
   * vanished tap is static or still wanted, and every key written before a failure is accounted for otherwise.
   */
  lemma ScanExact(respond: bool, s: State, fixed: set<Addr16>, ports: seq<Port>, rs: seq<Attempt>)
    requires |ports| == |rs| && Follows(s, fixed)
    ensures var gone, wanted := Gone(s, ports), Wanted(respond, s, ports, rs);
            Follows(Reconciled(respond, s, ports, rs), fixed) <==>
            gone !! (fixed + wanted) && Leaked(respond, s, ports, rs) <= fixed + wanted + gone
  {
    hide Owned, Reconciled, Names, Registered, Leaked;
    ScanEffect(respond, s, ports, rs);
    OwnedSplits(s.attached, Names(ports));
    var gone, wanted, leaked := Gone(s, ports), Wanted(respond, s, ports, rs), Leaked(respond, s, ports, rs);
    assert Reconciled(respond, s, ports, rs).local == fixed + wanted + gone + leaked - gone;
  }

  // ---- runs of scans ----

  /** One scan: the ports listed and how attaching each would go. */
  datatype Scan = Scan(ports: seq<Port>, rs: seq<Attempt>)

  predicate Paired(scans: seq<Scan>) {
    forall i :: 0 <= i < |scans| ==> |scans[i].ports| == |scans[i].rs|
  }

  function AfterScans(respond: bool, s: State, scans: seq<Scan>): State
    requires Paired(scans)
  {
    if scans == [] then s
    else
      var n := |scans| - 1;
      Reconciled(respond, AfterScans(respond, s, scans[..n]), scans[n].ports, scans[n].rs)
  }

  /** Only listed names are attached, and all of them unless attaching failed. */
  predicate ListedAttached(s: State, scan: Scan) {
    && s.attached.Keys <= Names(scan.ports)
    && ((forall i :: 0 <= i < |scan.rs| ==> scan.rs[i] != AttachFails) ==> s.attached.Keys == Names(scan.ports))
  }

  lemma LastScanAttached(respond: bool, s: State, scan: Scan)
    requires |scan.ports| == |scan.rs|
    ensures ListedAttached(Reconciled(respond, s, scan.ports, scan.rs), scan)
  {
    hide Reconciled, Names, Attempted;
    ScanEffect(respond, s, scan.ports, scan.rs);
    AttemptedListed(scan.ports, scan.rs);
  }

  /** Every key some failed write of the run left behind. */
  function LeakedBy(respond: bool, s: State, scans: seq<Scan>): set<Addr16>
    requires Paired(scans)
  {
    if scans == [] then {}
    else
      var n := |scans| - 1;
      LeakedBy(respond, s, scans[..n]) +
      Leaked(respond, AfterScans(respond, s, scans[..n]), scans[n].ports, scans[n].rs)
  }

  /** Ports of different name share no address, and none is static, across all scans. */
  ghost predicate DisjointTaps(scans: seq<Scan>, fixed: set<Addr16>) {
    && (forall i, j :: 0 <= i < |scans| && 0 <= j < |scans[i].ports| ==>
                         KernelKeys(scans[i].ports[j].ips) !! fixed)
    && (forall i, j, k, l ::
          && 0 <= i < |scans| && 0 <= j < |scans[i].ports| && 0 <= k < |scans| && 0 <= l < |scans[k].ports|
          && scans[i].ports[j].name != scans[k].ports[l].name ==>
            KernelKeys(scans[i].ports[j].ips) !! KernelKeys(scans[k].ports[l].ips))
  }

  /** Every attached tap registered the addresses some scan listed for it, or none. */
  ghost predicate FromScans(m: Attached, scans: seq<Scan>) {
    forall name :: name in m ==> m[name].ips == [] || ListedIn(name, m[name].ips, scans)
  }

  ghost predicate ListedIn(name: string, ips: seq<IP>, scans: seq<Scan>) {
    exists i, j :: 0 <= i < |scans| && 0 <= j < |scans[i].ports| && scans[i].ports[j] == Port(name, ips)
  }

  lemma {:induction false} AttachFromScans(
      respond: bool, s: State, ports: seq<Port>, rs: seq<Attempt>, scans: seq<Scan>, k: nat)
    requires |ports| == |rs| && FromScans(s.attached, scans) && k < |scans| && ports <= scans[k].ports
    ensures FromScans(AttachAll(respond, s, ports, rs).attached, scans)
  {
    if ports != [] {
      var n := |ports| - 1;
      AttachFromScans(respond, s, ports[..n], rs[..n], scans, k);
      assert scans[k].ports[n] == ports[n];
      assert ports[n] == Port(ports[n].name, ports[n].ips);
      assert ListedIn(ports[n].name, ports[n].ips, scans);
    }
  }

  /** Disjoint taps never release an address that is still wanted. */
  lemma DisjointReleases(m: Attached, scans: seq<Scan>, fixed: set<Addr16>, gone: set<string>)
    requires FromScans(m, scans) && DisjointTaps(scans, fixed)
    ensures Owned(Only(m, gone)) !! (fixed + Owned(Without(m, gone)))
  {
    hide KernelKeys;
    NoKeys();
    forall x, y | x in m && y in m && x in gone && y !in gone
      ensures KernelKeys(m[x].ips) !! fixed && KernelKeys(m[x].ips) !! KernelKeys(m[y].ips)
    {
      TwoTaps(m, scans, fixed, x, y);
    }
    forall k | k in Owned(Only(m, gone)) ensures k !in fixed + Owned(Without(m, gone)) {
      var x :| x in Only(m, gone) && k in KernelKeys(Only(m, gone)[x].ips);
      OneTap(m, scans, fixed, x);
    }
  }

  lemma OneTap(m: Attached, scans: seq<Scan>, fixed: set<Addr16>, x: string)
    requires FromScans(m, scans) && DisjointTaps(scans, fixed) && x in m
    ensures KernelKeys(m[x].ips) !! fixed
  {
    hide KernelKeys;
    NoKeys();
    if m[x].ips != [] {
      var i, j :| 0 <= i < |scans| && 0 <= j < |scans[i].ports| && scans[i].ports[j] == Port(x, m[x].ips);
      assert KernelKeys(scans[i].ports[j].ips) !! fixed;
    }
  }

  lemma TwoTaps(m: Attached, scans: seq<Scan>, fixed: set<Addr16>, x: string, y: string)
    requires FromScans(m, scans) && DisjointTaps(scans, fixed) && x in m && y in m && x != y
    ensures KernelKeys(m[x].ips) !! fixed && KernelKeys(m[x].ips) !! KernelKeys(m[y].ips)
  {
    hide KernelKeys;
    NoKeys();
    OneTap(m, scans, fixed, x);
    if m[x].ips != [] && m[y].ips != [] {
      var i, j :| 0 <= i < |scans| && 0 <= j < |scans[i].ports| && scans[i].ports[j] == Port(x, m[x].ips);
      var k, l :| 0 <= k < |scans| && 0 <= l < |scans[k].ports| && scans[k].ports[l] == Port(y, m[y].ips);
      assert scans[i].ports[j].name != scans[k].ports[l].name;
    }
  }

  /** A scan of disjoint taps releases nothing that is static or still wanted. */
  lemma DisjointScan(
      respond: bool, s: State, fixed: set<Addr16>, scans: seq<Scan>, k: nat)
    requires k < |scans| && Paired(scans) && FromScans(s.attached, scans) && DisjointTaps(scans, fixed)
    ensures FromScans(Reconciled(respond, s, scans[k].ports, scans[k].rs).attached, scans)
    ensures Gone(s, scans[k].ports) !! (fixed + Wanted(respond, s, scans[k].ports, scans[k].rs))
  {
    hide KernelKeys, Owned, DisjointTaps, AttachAll, ListedIn, Names, Attempted, Registered, Leaked;
    var ports, rs := scans[k].ports, scans[k].rs;
    var t := AttachAll(respond, s, ports, rs);
    var gone := t.attached.Keys - Names(ports);
    AttachFromScans(respond, s, ports, rs, scans, k);
    DisjointReleases(t.attached, scans, fixed, gone);
    ScanEffect(respond, s, ports, rs);
    AttachesExactly(respond, s, ports, rs, Names(ports));
    AttemptedListed(ports, rs);
    assert Only(t.attached, gone) == Without(s.attached, Names(ports));
  }

  /** Removing keys that nobody wants keeps the kernel's set between its bounds. */
  lemma StillFollows<T>(
      local: set<T>, fixed: set<T>, gone: set<T>, kept: set<T>, added: set<T>, leaks: set<T>, leaked: set<T>)
    requires fixed + (gone + kept) <= local <= fixed + (gone + kept) + leaks
    requires gone !! (fixed + (kept + added))
    ensures var now := local + added + leaked - gone;
            fixed + (kept + added) <= now <= fixed + (kept + added) + (leaks + leaked)
  {
  }

  /** Every wanted key is in the kernel's set, and nothing else but `leaks`. */
  predicate Within(s: State, fixed: set<Addr16>, leaks: set<Addr16>) {
    fixed + Owned(s.attached) <= s.local <= fixed + Owned(s.attached) + leaks
  }

  /** One scan of disjoint taps, from any state, adds what its failed writes leave and loses nothing wanted. */
  lemma ScanStaysWithin(
      respond: bool, s: State, fixed: set<Addr16>, leaks: set<Addr16>, scans: seq<Scan>, k: nat)
    requires k < |scans| && Paired(scans) && FromScans(s.attached, scans) && DisjointTaps(scans, fixed)
    requires Within(s, fixed, leaks)
    ensures var u := Reconciled(respond, s, scans[k].ports, scans[k].rs);
            && Within(u, fixed, leaks + Leaked(respond, s, scans[k].ports, scans[k].rs))
            && FromScans(u.attached, scans)
  {
    hide KernelKeys, Owned, DisjointTaps, Reconciled, Names, Attempted, Registered, Leaked, FromScans, Only, Without;
    var ports, rs := scans[k].ports, scans[k].rs;
    ScanEffect(respond, s, ports, rs);
    DisjointScan(respond, s, fixed, scans, k);
    OwnedSplits(s.attached, Names(ports));
    StillFollows(s.local, fixed, Gone(s, ports), Owned(Only(s.attached, Names(ports))),
                 Registered(respond, s, ports, rs), leaks, Leaked(respond, s, ports, rs));
  }

  lemma WithinNothing(s: State, fixed: set<Addr16>)
    requires Within(s, fixed, {})
    ensures Follows(s, fixed)
  {
    hide Owned;
  }

  lemma StartsWithin(fixed: set<Addr16>, scans: seq<Scan>)
    ensures Within(State(map[], fixed), fixed, {}) && FromScans(map[], scans)
  {
    NothingOwned();
  }

  lemma {:induction false} RunWithin(respond: bool, fixed: set<Addr16>, scans: seq<Scan>, all: seq<Scan>)
    requires scans <= all && Paired(all) && DisjointTaps(all, fixed)
    ensures var s := AfterScans(respond, State(map[], fixed), scans);
            Within(s, fixed, LeakedBy(respond, State(map[], fixed), scans)) && FromScans(s.attached, all)
  {
    hide Within, FromScans, DisjointTaps, Reconciled, Leaked;
    if scans == [] {
      StartsWithin(fixed, all);
    } else {
      var n := |scans| - 1;
      RunWithin(respond, fixed, scans[..n], all);
      assert all[n] == scans[n];
      ScanStaysWithin(respond, AfterScans(respond, State(map[], fixed), scans[..n]), fixed,
                      LeakedBy(respond, State(map[], fixed), scans[..n]), all, n);
    }
  }

  /**
   * Every run of scans over disjoint taps, whatever fails on the way: no static address and no address of an
   * attached responding tap is ever missing from the kernel's set, and what it holds beyond them was left by
   * failed writes. Without failed writes it holds exactly those.
   */
  lemma RunFollows(respond: bool, fixed: set<Addr16>, scans: seq<Scan>, all: seq<Scan>)
    requires scans <= all && Paired(all) && DisjointTaps(all, fixed)
    ensures var s := AfterScans(respond, State(map[], fixed), scans);
            var leaks := LeakedBy(respond, State(map[], fixed), scans);
            && fixed + Owned(s.attached) <= s.local <= fixed + Owned(s.attached) + leaks
            && (leaks == {} ==> Follows(s, fixed))
            && FromScans(s.attached, all)
            && (scans != [] ==> ListedAttached(s, scans[|scans| - 1]))
  {
    hide Owned, FromScans, DisjointTaps, Reconciled, LeakedBy, ListedAttached, Follows;
    RunWithin(respond, fixed, scans, all);
    var s := AfterScans(respond, State(map[], fixed), scans);
    if LeakedBy(respond, State(map[], fixed), scans) == {} {
      WithinNothing(s, fixed);
    }
    if scans != [] {
      var n := |scans| - 1;
      LastScanAttached(respond, AfterScans(respond, State(map[], fixed), scans[..n]), scans[n]);
    }
  }

  /** Nothing is left behind when no write fails half way. */
  lemma {:induction false} NothingLeaked(respond: bool, s: State, scans: seq<Scan>)
    requires Paired(scans)
    requires forall i, j :: 0 <= i < |scans| && 0 <= j < |scans[i].rs| ==> !Breaks(scans[i].ports[j], scans[i].rs[j])
    ensures LeakedBy(respond, s, scans) == {}
  {
    hide Breaks, Takes, KernelKeys, Reconciled;
    if scans != [] {
      NothingLeaked(respond, s, scans[..|scans| - 1]);
    }
  }

  lemma NothingOwned()
    ensures Owned(map[]) == {}
  {
  }

  // ---- what goes wrong without the conditions ----

  lemma TwoScans(respond: bool, s: State, first: Scan, second: Scan)
    requires |first.ports| == |first.rs| && |second.ports| == |second.rs|
    ensures Paired([first, second])
    ensures AfterScans(respond, s, [first, second]) ==
            Reconciled(respond, Reconciled(respond, s, first.ports, first.rs), second.ports, second.rs)
  {
    hide Reconciled;
    var scans := [first, second];
    assert scans[..1] == [first] && [first][..0] == [];
    assert AfterScans(respond, s, []) == s;
    assert AfterScans(respond, s, [first]) == Reconciled(respond, s, first.ports, first.rs);
  }

  function Solo(name: string, ips: seq<IP>, r: Attempt): Scan {
    Scan([Port(name, ips)], [r])
  }

  /** Replacing a tap by another with the same address, in one scan, registers the address and then removes it. */
  lemma ReplacedTapLosesAddress(ip: IP)
    ensures var u := AfterScans(true, State(map[], {}), [Solo("a", [ip], Succeeds), Solo("b", [ip], Succeeds)]);
            u.attached == map["b" := Attachment(true, [ip])] && u.local == {} && !Follows(u, {})
  {
    var empty, first, second := State(map[], {}), Solo("a", [ip], Succeeds), Solo("b", [ip], Succeeds);
    TwoScans(true, empty, first, second);
    OneKey(ip);
    Singles(ip);
    var s := State(map["a" := Attachment(true, [ip])], {KernelKey(ip)});
    SinglePort(true, empty, first.ports[0], Succeeds);
    NothingDetached(s);
    assert s.attached.Keys - Names(first.ports) == {} by { assert first.ports[0].name == "a"; }
    assert Reconciled(true, empty, first.ports, first.rs) == s;
    var t := AttachAll(true, s, second.ports, second.rs);
    SinglePort(true, s, second.ports[0], Succeeds);
    assert Names(second.ports) == {"b"} by { assert second.ports[0].name == "b"; }
    assert t.attached.Keys - Names(second.ports) == {"a"};
    DetachOne(t, "a");
    assert t.attached - {"a"} == map["b" := Attachment(true, [ip])];
  }

  lemma OneKey(ip: IP)
    ensures KernelKeys([ip]) == {KernelKey(ip)}
  {
    assert [ip][0] == ip;
  }

  lemma SinglePort(respond: bool, s: State, p: Port, r: Attempt)
    ensures AttachAll(respond, s, [p], [r]) == AttachOne(respond, s, p, r)
  {
    assert [p][..0] == [] && [r][..0] == [];
    assert AttachAll(respond, s, [], []) == s;
  }

  lemma Singles(ip: IP)
    ensures Owned(map["a" := Attachment(true, [ip])]) == {KernelKey(ip)}
    ensures Owned(map["b" := Attachment(true, [ip])]) == {KernelKey(ip)}
  {
    OneKey(ip);
    var a, b := map["a" := Attachment(true, [ip])], map["b" := Attachment(true, [ip])];
    assert "a" in a && KernelKey(ip) in KernelKeys(a["a"].ips);
    assert "b" in b && KernelKey(ip) in KernelKeys(b["b"].ips);
  }

  /** A Put that fails half way leaves addresses behind that no detach removes. */
  lemma FailedPutLeaks(ip: IP, other: IP)
    ensures var u := AfterScans(true, State(map[], {}), [Solo("a", [ip, other], PutFails(1)), Scan([], [])]);
            u.attached == map[] && u.local == {KernelKey(ip)} && !Follows(u, {})
  {
    var empty, first := State(map[], {}), Solo("a", [ip, other], PutFails(1));
    TwoScans(true, empty, first, Scan([], []));
    var t := AttachAll(true, empty, first.ports, first.rs);
    SinglePort(true, empty, first.ports[0], PutFails(1));
    assert [ip, other][..1] == [ip];
    OneKey(ip);
    assert t == State(map["a" := Attachment(true, [])], {KernelKey(ip)});
    assert Names(first.ports) == {"a"} by { assert first.ports[0].name == "a"; }
    NothingDetached(t);
    assert t.attached.Keys - Names(first.ports) == {};
    DetachOne(t, "a");
    assert Names([]) == {};
    assert t.attached.Keys - {} == {"a"};
    NothingOwned();
  }
}
