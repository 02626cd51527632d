/** Policy rules that follow interfaces (iprule.c).

    A rule may name an incoming and an outgoing interface. It is added to the kernel when every
    interface it names is up, and removed when one goes away; the device names come from the
    interfaces at the time they come up.
 */
module IpRule {
  import opened Lists
  import opened Options

  datatype Side = In | Out

  /** `struct iprule`, without the selectors that only the kernel reads. An absent interface name
      is a clear IPRULE_IN or IPRULE_OUT flag; `inUser` and `outUser` tell whether the user is
      attached to an interface; an empty device name is "not known". */
  datatype Rule = Rule(inIf: Option<string>, outIf: Option<string>, inUser: bool, outUser: bool,
                       inDev: string, outDev: string)
  {
    function If(side: Side): Option<string> { if side.In? then inIf else outIf }
    function User(side: Side): bool { if side.In? then inUser else outUser }
    function Dev(side: Side): string { if side.In? then inDev else outDev }

    function WithUser(side: Side, b: bool): Rule
    {
      if side.In? then this.(inUser := b) else this.(outUser := b)
    }

    function WithDev(side: Side, d: string): Rule
    {
      if side.In? then this.(inDev := d) else this.(outDev := d)
    }

    /** rule_ready */
    predicate Ready()
    {
      !(outIf.Some? && outDev == "") && !(inIf.Some? && inDev == "")
    }
  }

  /** One interface_user of a rule. */
  datatype User = User(id: nat, side: Side)

  /** `up` is state == IFS_UP; `announced` tells whether IFEV_UP was raised after the last
      IFEV_DOWN, which the interface may still owe after it left IFS_UP. */
  datatype Iface = Iface(up: bool, announced: bool, l3: Option<string>, users: seq<User>)

  /** The calls that the kernel sees. */
  datatype Op = Add(id: nat, inDev: string, outDev: string) | Del(id: nat, inDev: string, outDev: string)

  datatype State = State(order: seq<nat>, rules: map<nat, Rule>, ifaces: map<string, Iface>, ops: seq<Op>)

  datatype Event = Up | Down | UpFailed | Free | Other

  const EMPTY := State([], map[], map[], [])

  // ----- the callbacks

  function SetRule(s: State, id: nat, r: Rule): State
  {
    s.(rules := s.rules[id := r])
  }

  /** rule_in_cb and rule_out_cb */
  function RuleCb(s: State, u: User, l3: Option<string>, ev: Event): State
    requires u.id in s.rules
  {
    var r := s.rules[u.id];
    match ev
    case Up =>
      if l3.None? then s
      else
        var r' := r.WithDev(u.side, l3.value);
        var s' := SetRule(s, u.id, r');
        if r'.Ready() then s'.(ops := s.ops + [Add(u.id, r'.inDev, r'.outDev)]) else s'
    case Other => s
    case _ =>
      var s' := SetRule(s, u.id, r.WithDev(u.side, ""));
      if r.Ready() then s'.(ops := s.ops + [Del(u.id, r.inDev, r.outDev)]) else s'
  }

  ghost predicate UsersKnown(rules: map<nat, Rule>, users: seq<User>)
  {
    forall u :: u in users ==> u.id in rules
  }

  /** The walk over the users of an interface in interface_event. */
  function Deliver(s: State, users: seq<User>, l3: Option<string>, ev: Event): (r: State)
    requires UsersKnown(s.rules, users)
    ensures r.rules.Keys == s.rules.Keys && r.ifaces == s.ifaces && r.order == s.order
    decreases |users|
  {
    if users == [] then s else Deliver(RuleCb(s, users[0], l3, ev), users[1..], l3, ev)
  }

  /** interface_add_user: who comes late to an interface that is up is told at once. */
  function AddUser(s: State, u: User, n: string): (r: State)
    requires u.id in s.rules && n in s.ifaces
    ensures r.rules.Keys == s.rules.Keys && r.ifaces.Keys == s.ifaces.Keys && r.order == s.order
  {
    var i := s.ifaces[n];
    if i.up then RuleCb(Enlist(s, u, n), u, i.l3, Up) else Enlist(s, u, n)
  }

  function Enlist(s: State, u: User, n: string): State
    requires u.id in s.rules && n in s.ifaces
  {
    SetRule(s, u.id, s.rules[u.id].WithUser(u.side, true))
    .(ifaces := s.ifaces[n := s.ifaces[n].(users := [u] + s.ifaces[n].users)])
  }

  /** interface_remove_user: says nothing. */
  function RemoveUser(s: State, u: User, n: string): (r: State)
    requires u.id in s.rules && n in s.ifaces
    ensures r.rules.Keys == s.rules.Keys && r.ifaces.Keys == s.ifaces.Keys && r.order == s.order
  {
    SetRule(s, u.id, s.rules[u.id].WithUser(u.side, false))
    .(ifaces := s.ifaces[n := s.ifaces[n].(users := Without(s.ifaces[n].users, u))])
  }

  // ----- rules come and go

  /** One half of register_interfaces. */
  function RegisterSide(s: State, u: User): (r: State)
    requires u.id in s.rules
    ensures r.rules.Keys == s.rules.Keys && r.ifaces.Keys == s.ifaces.Keys && r.order == s.order
  {
    var n := s.rules[u.id].If(u.side);
    if n.Some? && n.value in s.ifaces then AddUser(s, u, n.value) else s
  }

  function DeregisterSide(s: State, u: User): (r: State)
    requires u.id in s.rules
    ensures r.rules.Keys == s.rules.Keys && r.ifaces.Keys == s.ifaces.Keys && r.order == s.order
  {
    var rule := s.rules[u.id];
    if rule.If(u.side).Some? && rule.User(u.side) && rule.If(u.side).value in s.ifaces
    then RemoveUser(s, u, rule.If(u.side).value) else s
  }

  /** iprule_update_rule with a new rule, which the tree put at `pos`. */
  function NewRule(s: State, id: nat, pos: nat, inIf: Option<string>, outIf: Option<string>): State
    requires id !in s.rules && pos <= |s.order|
  {
    var s' := s.(order := s.order[..pos] + [id] + s.order[pos..],
                 rules := s.rules[id := Rule(inIf, outIf, false, false, "", "")]);
    if inIf.None? && outIf.None? then s'.(ops := s.ops + [Add(id, "", "")])
    else RegisterSide(RegisterSide(s', User(id, In)), User(id, Out))
  }

  /** iprule_update_rule with an old rule. */
  function OldRule(s: State, id: nat): State
    requires id in s.rules
  {
    var r := s.rules[id];
    var s1 := if r.Ready() then s.(ops := s.ops + [Del(id, r.inDev, r.outDev)]) else s;
    var s2 := DeregisterSide(DeregisterSide(s1, User(id, In)), User(id, Out));
    s2.(order := Without(s.order, id), rules := s2.rules - {id})
  }

  /** generic_interface_cb for one rule: users are attached only to rules that are not ready. */
  function Attach(s: State, id: nat, n: string): (r: State)
    requires id in s.rules && n in s.ifaces
    ensures r.rules.Keys == s.rules.Keys && r.ifaces.Keys == s.ifaces.Keys && r.order == s.order
  {
    var r := s.rules[id];
    if r.Ready() then s
    else
      var s' := if r.outIf == Some(n) then AddUser(s, User(id, Out), n) else s;
      if r.inIf == Some(n) then AddUser(s', User(id, In), n) else s'
  }

  function AttachAll(s: State, ids: seq<nat>, n: string): State
    requires (forall id :: id in ids ==> id in s.rules) && n in s.ifaces
    decreases |ids|
  {
    if ids == [] then s else AttachAll(Attach(s, ids[0], n), ids[1..], n)
  }

  // ----- what happens to the daemon

  datatype Happening =
    | Create(n: string)                       // a new interface
    | Raise(n: string)                        // it comes up
    | Leave(n: string)                        // it leaves IFS_UP, IFEV_DOWN is still to come
    | Lower(n: string, failed: bool)          // IFEV_DOWN or IFEV_UP_FAILED
    | Note(n: string)                         // any other event
    | SetL3(n: string, dev: Option<string>)   // the protocol handler names its device
    | Remove(n: string)                       // IFEV_FREE, then the interface lets its users go
    | AddRule(id: nat, pos: nat, inIf: Option<string>, outIf: Option<string>)
    | DelRule(id: nat)                        // a replaced rule is one deletion and one addition

  /** Interfaces follow their protocol: a new name is new, and IFEV_UP is not raised twice without
      IFEV_DOWN between. */
  predicate Possible(s: State, h: Happening)
  {
    match h
    case Create(n) => n !in s.ifaces
    case Raise(n) => n in s.ifaces && !s.ifaces[n].announced
    case AddRule(id, pos, _, _) => id !in s.rules && pos <= |s.order|
    case DelRule(id) => id in s.rules
    case _ => h.n in s.ifaces
  }

  function SetIface(s: State, n: string, i: Iface): State
  {
    s.(ifaces := s.ifaces[n := i])
  }

  /** interface_event for the rules' users. */
  function Tell(s: State, n: string, ev: Event): (r: State)
    requires n in s.ifaces && UsersKnown(s.rules, s.ifaces[n].users)
    ensures r.rules.Keys == s.rules.Keys && r.ifaces == s.ifaces && r.order == s.order
  {
    Deliver(s, s.ifaces[n].users, s.ifaces[n].l3, ev)
  }

  function Detached(rules: map<nat, Rule>, users: seq<User>): (r: map<nat, Rule>)
    requires UsersKnown(rules, users)
    ensures r.Keys == rules.Keys
    decreases |users|
  {
    if users == [] then rules
    else Detached(rules[users[0].id := rules[users[0].id].WithUser(users[0].side, false)], users[1..])
  }

  ghost predicate Closed(s: State)
  {
    && (forall n :: n in s.ifaces ==> UsersKnown(s.rules, s.ifaces[n].users))
    && (forall id :: id in s.order <==> id in s.rules)
  }

  function Step(s: State, h: Happening): State
    requires Closed(s) && Possible(s, h)
  {
    match h
    case Create(n) => AttachAll(SetIface(s, n, Iface(false, false, None, [])), s.order, n)
    case Raise(n) => Tell(SetIface(s, n, s.ifaces[n].(up := true, announced := true)), n, Up)
    case Leave(n) => SetIface(s, n, s.ifaces[n].(up := false))
    case Lower(n, failed) =>
      Tell(SetIface(s, n, s.ifaces[n].(up := false, announced := false)), n, if failed then UpFailed else Down)
    case Note(n) => Tell(s, n, Other)
    case SetL3(n, dev) => SetIface(s, n, s.ifaces[n].(l3 := dev))
    case Remove(n) =>
      var s1 := Tell(s, n, Free);
      s1.(rules := Detached(s1.rules, s.ifaces[n].users), ifaces := s1.ifaces - {n})
    case AddRule(id, pos, inIf, outIf) => NewRule(s, id, pos, inIf, outIf)
    case DelRule(id) => OldRule(s, id)
  }

  // ----- the kernel's account

  /** What the calls so far left in the kernel for one rule: nothing, one rule with these device
      names, or a rule added twice or deleted under other names. */
  datatype Account = Clear | Installed(inDev: string, outDev: string) | Broken

  function After(a: Account, op: Op): Account
  {
    match op
    case Add(_, i, o) => if a == Clear then Installed(i, o) else Broken
    case Del(_, i, o) => if a == Installed(i, o) then Clear else Broken
  }

  function AccountOf(ops: seq<Op>, id: nat): Account
  {
    if ops == [] then Clear
    else
      var a, op := AccountOf(ops[..|ops| - 1], id), ops[|ops| - 1];
      if op.id == id then After(a, op) else a
  }

  function Expected(rules: map<nat, Rule>, id: nat): Account
  {
    if id in rules && rules[id].Ready() then Installed(rules[id].inDev, rules[id].outDev) else Clear
  }

  ghost predicate Balanced(s: State)
  {
    forall id: nat :: AccountOf(s.ops, id) == Expected(s.rules, id)
  }

  lemma AccountStep(ops: seq<Op>, op: Op)
    ensures AccountOf(ops + [op], op.id) == After(AccountOf(ops, op.id), op)
    ensures forall id: nat :: id != op.id ==> AccountOf(ops + [op], id) == AccountOf(ops, id)
  {
    var ops' := ops + [op];
    assert ops'[..|ops'| - 1] == ops;
  }

  // ----- the invariant

  ghost predicate LinkOk(s: State, u: User)
    requires u.id in s.rules
  {
    var r := s.rules[u.id];
    r.User(u.side) ==> r.If(u.side).Some? && r.If(u.side).value in s.ifaces
  }

  ghost predicate NameOk(s: State, u: User, name: string)
    requires u.id in s.rules && LinkOk(s, u)
  {
    var r := s.rules[u.id];
    name != "" ==> r.User(u.side) && s.ifaces[r.If(u.side).value].announced
  }

  ghost predicate UserOk(s: State, u: User)
    requires u.id in s.rules
  {
    LinkOk(s, u) && NameOk(s, u, s.rules[u.id].Dev(u.side))
  }

  ghost predicate Belongs(rules: map<nat, Rule>, u: User, n: string)
  {
    u.id in rules && rules[u.id].User(u.side) && rules[u.id].If(u.side) == Some(n)
  }

  ghost predicate IfaceOk(s: State, n: string)
    requires n in s.ifaces
  {
    var i := s.ifaces[n];
    && NoDup(i.users) && (i.up ==> i.announced)
    && (forall u :: u in i.users <==> Belongs(s.rules, u, n))
  }

  /** The lists and the rules agree, device names are known only while the interface is announced,
      and the kernel holds what it should. */
  ghost predicate Core(s: State)
  {
    && (forall u: User :: u.id in s.rules ==> UserOk(s, u))
    && (forall n :: n in s.ifaces ==> IfaceOk(s, n))
    && Balanced(s)
  }

  lemma CoreUser(s: State, u: User)
    requires Core(s) && u.id in s.rules
    ensures UserOk(s, u)
  {
  }

  /** A rule is attached to every interface it names that exists. */
  ghost predicate AttachedTo(s: State, u: User)
    requires u.id in s.rules
  {
    var n := s.rules[u.id].If(u.side);
    n.Some? && n.value in s.ifaces ==> s.rules[u.id].User(u.side)
  }

  ghost predicate Complete(s: State)
  {
    forall u: User :: u.id in s.rules ==> AttachedTo(s, u)
  }

  ghost predicate Inv(s: State)
  {
    Core(s) && Complete(s) && Closed(s) && NoDup(s.order)
  }

  lemma InvParts(s: State)
    ensures Inv(s) ==> NoDup(s.order) && Balanced(s)
    ensures Core(s) && Complete(s) && Closed(s) && NoDup(s.order) ==> Inv(s)
  {
  }

  // ----- callbacks keep the account

  /** The device name a callback leaves behind. */
  function NameAfter(ev: Event, l3: Option<string>, d: string): string
  {
    match ev
    case Up => if l3.Some? then l3.value else d
    case Other => d
    case _ => ""
  }

  lemma CbKeeps(s: State, u: User, l3: Option<string>, ev: Event)
    requires Balanced(s) && u.id in s.rules && s.rules[u.id].If(u.side).Some?
    requires ev.Up? ==> s.rules[u.id].Dev(u.side) == ""
    ensures var r := s.rules[u.id];
            var s' := RuleCb(s, u, l3, ev);
            && Balanced(s') && s'.ifaces == s.ifaces && s'.order == s.order
            && s'.rules == s.rules[u.id := r.WithDev(u.side, NameAfter(ev, l3, r.Dev(u.side)))]
  {
    hide AccountOf;
    var r := s.rules[u.id];
    var r' := r.WithDev(u.side, NameAfter(ev, l3, r.Dev(u.side)));
    var s' := RuleCb(s, u, l3, ev);
    assert AccountOf(s.ops, u.id) == Expected(s.rules, u.id);
    if s'.ops != s.ops {
      AccountStep(s.ops, s'.ops[|s.ops|]);
    }
    assert r == r.WithDev(u.side, r.Dev(u.side));
    assert s.rules == s.rules[u.id := r];
    assert AccountOf(s'.ops, u.id) == Expected(s'.rules, u.id);
    forall id: nat | id != u.id ensures AccountOf(s'.ops, id) == Expected(s'.rules, id) {
      assert AccountOf(s.ops, id) == Expected(s.rules, id);
    }
  }

  ghost predicate SameLinks(r: Rule, r': Rule)
  {
    r.inIf == r'.inIf && r.outIf == r'.outIf && r.inUser == r'.inUser && r.outUser == r'.outUser
  }

  lemma {:induction false} DeliverKeeps(s: State, users: seq<User>, l3: Option<string>, ev: Event)
    requires Balanced(s) && UsersKnown(s.rules, users) && NoDup(users)
    requires forall u :: u in users ==> s.rules[u.id].If(u.side).Some?
    requires ev.Up? ==> forall u :: u in users ==> s.rules[u.id].Dev(u.side) == ""
    ensures Balanced(Deliver(s, users, l3, ev))
    ensures forall id :: id in s.rules ==> SameLinks(s.rules[id], Deliver(s, users, l3, ev).rules[id])
    ensures forall u: User :: u.id in s.rules ==>
              Deliver(s, users, l3, ev).rules[u.id].Dev(u.side)
              == if u in users then NameAfter(ev, l3, s.rules[u.id].Dev(u.side)) else s.rules[u.id].Dev(u.side)
    decreases |users|
  {
    hide RuleCb, Balanced;
    if users != [] {
      var first, rest := users[0], users[1..];
      assert first in users;
      var r := s.rules[first.id];
      var d := NameAfter(ev, l3, r.Dev(first.side));
      CbKeeps(s, first, l3, ev);
      var s1 := RuleCb(s, first, l3, ev);
      forall u | u in rest ensures u in users && u != first {
        var k :| 0 <= k < |rest| && rest[k] == u;
        assert users[k + 1] == u;
      }
      forall u: User | u.id in s.rules
        ensures SameLinks(s.rules[u.id], s1.rules[u.id])
        ensures s1.rules[u.id].Dev(u.side) == if u == first then d else s.rules[u.id].Dev(u.side)
      {
      }
      forall u | u in rest ensures s1.rules[u.id].If(u.side) == s.rules[u.id].If(u.side) {
        assert SameLinks(s.rules[u.id], s1.rules[u.id]);
      }
      DeliverKeeps(s1, rest, l3, ev);
      var s2 := Deliver(s1, rest, l3, ev);
      forall u: User | u.id in s.rules
        ensures SameLinks(s.rules[u.id], s2.rules[u.id])
        ensures s2.rules[u.id].Dev(u.side)
                == if u in users then NameAfter(ev, l3, s.rules[u.id].Dev(u.side)) else s.rules[u.id].Dev(u.side)
      {
        assert SameLinks(s.rules[u.id], s1.rules[u.id]);
        assert u in users <==> u == first || u in rest;
      }
      forall id | id in s.rules ensures SameLinks(s.rules[id], s2.rules[id]) {
        assert User(id, In).id in s.rules;
      }
    }
  }

  /** What an event needs so that telling the users restores the invariant. */
  ghost predicate ReadyToTell(s: State, n: string, ev: Event)
    requires n in s.ifaces
  {
    && (forall u: User :: u.id in s.rules ==>
          LinkOk(s, u)
          && NameOk(s, u, if Belongs(s.rules, u, n) then NameAfter(ev, s.ifaces[n].l3, s.rules[u.id].Dev(u.side))
                          else s.rules[u.id].Dev(u.side)))
    && (ev.Up? ==> forall u: User :: Belongs(s.rules, u, n) ==> s.rules[u.id].Dev(u.side) == "")
    && (forall n' :: n' in s.ifaces ==> IfaceOk(s, n'))
    && Balanced(s)
  }

  lemma TellKeeps(s: State, n: string, ev: Event)
    requires n in s.ifaces && ReadyToTell(s, n, ev)
    ensures UsersKnown(s.rules, s.ifaces[n].users)
    ensures Core(Tell(s, n, ev))
    ensures forall id :: id in s.rules ==> SameLinks(s.rules[id], Tell(s, n, ev).rules[id])
    ensures forall u: User :: u.id in s.rules ==>
              Tell(s, n, ev).rules[u.id].Dev(u.side)
              == if Belongs(s.rules, u, n) then NameAfter(ev, s.ifaces[n].l3, s.rules[u.id].Dev(u.side))
                 else s.rules[u.id].Dev(u.side)
  {
    hide Balanced, Deliver;
    var users := s.ifaces[n].users;
    assert IfaceOk(s, n);
    DeliverKeeps(s, users, s.ifaces[n].l3, ev);
    var s' := Tell(s, n, ev);
    forall u: User | u.id in s'.rules ensures UserOk(s', u) {
      assert LinkOk(s, u) && SameLinks(s.rules[u.id], s'.rules[u.id]);
    }
    forall n' | n' in s'.ifaces ensures IfaceOk(s', n') {
      assert IfaceOk(s, n');
      forall u ensures u in s'.ifaces[n'].users <==> Belongs(s'.rules, u, n') {
        assert u in s.ifaces[n'].users <==> Belongs(s.rules, u, n');
        if u.id in s.rules {
          assert SameLinks(s.rules[u.id], s'.rules[u.id]);
        }
      }
    }
  }

  lemma LinksCarryOver(s: State, s': State)
    requires s.rules.Keys == s'.rules.Keys && s.ifaces.Keys == s'.ifaces.Keys && Complete(s)
    requires forall id :: id in s.rules ==> SameLinks(s.rules[id], s'.rules[id])
    ensures Complete(s')
  {
    forall u: User | u.id in s'.rules ensures AttachedTo(s', u) {
      assert AttachedTo(s, u) && SameLinks(s.rules[u.id], s'.rules[u.id]);
    }
  }

  lemma CoreIsClosed(s: State)
    requires Core(s) && (forall id :: id in s.order <==> id in s.rules)
    ensures Closed(s)
  {
    forall n | n in s.ifaces ensures UsersKnown(s.rules, s.ifaces[n].users) {
      assert IfaceOk(s, n);
      forall u | u in s.ifaces[n].users ensures u.id in s.rules {
        assert Belongs(s.rules, u, n);
      }
    }
  }

  predicate Told(h: Happening)
  {
    h.Raise? || h.Lower? || h.Note? || h.Leave? || h.SetL3?
  }

  function NextIface(i: Iface, h: Happening): Iface
    requires Told(h)
  {
    match h
    case Raise(_) => i.(up := true, announced := true)
    case Lower(_, _) => i.(up := false, announced := false)
    case Leave(_) => i.(up := false)
    case SetL3(_, dev) => i.(l3 := dev)
    case _ => i
  }

  function EventOf(h: Happening): Event
    requires Told(h)
  {
    match h
    case Raise(_) => Up
    case Lower(_, failed) => if failed then UpFailed else Down
    case _ => Other
  }

  /** These happenings are all of one form: the interface changes, then its users are told. */
  lemma ToldStep(s: State, h: Happening)
    requires Inv(s) && Possible(s, h) && Told(h)
    ensures var s1 := SetIface(s, h.n, NextIface(s.ifaces[h.n], h));
            ReadyToTell(s1, h.n, EventOf(h)) && UsersKnown(s1.rules, s1.ifaces[h.n].users)
            && Step(s, h) == Tell(s1, h.n, EventOf(h))
  {
    hide Balanced, Deliver;
    var n := h.n;
    var s1 := SetIface(s, n, NextIface(s.ifaces[n], h));
    assert s.ifaces[n := s.ifaces[n]] == s.ifaces;
    assert IfaceOk(s, n);
    forall u: User | u.id in s1.rules ensures UserOk(s, u) && LinkOk(s1, u) {
      assert UserOk(s, u);
    }
    forall n' | n' in s1.ifaces ensures IfaceOk(s1, n') {
      assert IfaceOk(s, n');
    }
    BalancedFrame(s, s1);
    OtherIsSilent(s1, s1.ifaces[n].users, s1.ifaces[n].l3);
  }

  lemma InterfaceStepKeeps(s: State, h: Happening)
    requires Inv(s) && Possible(s, h) && Told(h)
    ensures Inv(Step(s, h))
  {
    hide Balanced, Deliver, Step, IfaceOk;
    ToldStep(s, h);
    var s1 := SetIface(s, h.n, NextIface(s.ifaces[h.n], h));
    TellKeeps(s1, h.n, EventOf(h));
    assert Complete(s1) by {
      forall u: User | u.id in s1.rules ensures AttachedTo(s1, u) {
        assert AttachedTo(s, u);
      }
    }
    LinksCarryOver(s1, Step(s, h));
    CoreIsClosed(Step(s, h));
  }

  lemma BalancedFrame(s: State, s': State)
    requires Balanced(s) && s'.ops == s.ops && s'.rules == s.rules
    ensures Balanced(s')
  {
    forall id: nat ensures AccountOf(s'.ops, id) == Expected(s'.rules, id) {
      assert AccountOf(s.ops, id) == Expected(s.rules, id);
    }
  }

  lemma {:induction false} OtherIsSilent(s: State, users: seq<User>, l3: Option<string>)
    requires UsersKnown(s.rules, users)
    ensures Deliver(s, users, l3, Other) == s
    decreases |users|
  {
    if users != [] {
      OtherIsSilent(s, users[1..], l3);
    }
  }

  // ----- users come and go

  /** Only `u` may change: everybody else's links and names stay, and so do the interfaces. */
  ghost predicate OnlyUser(s: State, s': State, u: User)
  {
    && s.rules.Keys == s'.rules.Keys && s.ifaces.Keys == s'.ifaces.Keys && s.order == s'.order
    && (forall v: User :: v.id in s.rules ==> SameUser(s, s', v, u))
    && (forall n :: n in s.ifaces ==> SameIface(s.ifaces[n], s'.ifaces[n]))
  }

  ghost predicate SameUser(s: State, s': State, v: User, u: User)
    requires v.id in s.rules && v.id in s'.rules
  {
    var r, r' := s.rules[v.id], s'.rules[v.id];
    && r.If(v.side) == r'.If(v.side)
    && (v != u ==> r.User(v.side) == r'.User(v.side) && r.Dev(v.side) == r'.Dev(v.side))
  }

  ghost predicate SameIface(i: Iface, i': Iface)
  {
    i.up == i'.up && i.announced == i'.announced && i.l3 == i'.l3
  }

  lemma EnlistKeeps(s: State, u: User, n: string)
    requires Core(s) && u.id in s.rules && n in s.ifaces
    requires s.rules[u.id].If(u.side) == Some(n) && !s.rules[u.id].User(u.side)
    ensures var s' := Enlist(s, u, n);
            && Core(s') && OnlyUser(s, s', u) && s'.rules[u.id].User(u.side)
            && s'.rules[u.id].Dev(u.side) == ""
  {
    hide Balanced;
    var s' := Enlist(s, u, n);
    assert UserOk(s, u) && IfaceOk(s, n);
    assert Balanced(s') by { LedgerFrame(s, s'); }
    assert u !in s.ifaces[n].users by { assert !Belongs(s.rules, u, n); }
    forall v: User | v.id in s.rules ensures SameUser(s, s', v, u) && UserOk(s', v) {
      assert UserOk(s, v);
    }
    UsersAgree(s, s', u, n);
  }

  lemma AddUserKeeps(s: State, u: User, n: string)
    requires Core(s) && u.id in s.rules && n in s.ifaces
    requires s.rules[u.id].If(u.side) == Some(n) && !s.rules[u.id].User(u.side)
    ensures var s' := AddUser(s, u, n);
            && Core(s') && OnlyUser(s, s', u) && s'.rules[u.id].User(u.side)
            && s'.rules[u.id].Dev(u.side)
               == (if s.ifaces[n].up && s.ifaces[n].l3.Some? then s.ifaces[n].l3.value else "")
  {
    hide Balanced, RuleCb, Enlist;
    EnlistKeeps(s, u, n);
    var i, s1 := s.ifaces[n], Enlist(s, u, n);
    if i.up {
      CbKeeps(s1, u, i.l3, Up);
      assert IfaceOk(s1, n) && SameIface(i, s1.ifaces[n]);
      assert SameUser(s, s1, u, u);
      RenamedKeeps(s, s1, AddUser(s, u, n), u);
    }
  }

  lemma RenamedKeeps(s: State, s1: State, s': State, u: User)
    requires Core(s1) && OnlyUser(s, s1, u) && u.id in s1.rules && Balanced(s')
    requires s'.ifaces == s1.ifaces && s'.order == s1.order
    requires u.id in s'.rules
    requires var d := s'.rules[u.id].Dev(u.side);
             && s'.rules == s1.rules[u.id := s1.rules[u.id].WithDev(u.side, d)]
             && LinkOk(s1, u) && NameOk(s1, u, d)
    ensures Core(s') && OnlyUser(s, s', u)
  {
    hide Balanced;
    forall v: User | v.id in s.rules ensures SameUser(s, s', v, u) && UserOk(s', v) {
      assert SameUser(s, s1, v, u) && UserOk(s1, v);
    }
    forall n | n in s'.ifaces ensures IfaceOk(s', n) {
      assert IfaceOk(s1, n);
    }
  }

  lemma UsersAgree(s: State, s': State, u: User, n: string)
    requires n in s.ifaces && OnlyUser(s, s', u) && Belongs(s'.rules, u, n) && !Belongs(s.rules, u, n)
    requires s'.ifaces[n].users == [u] + s.ifaces[n].users
    requires forall n' :: n' in s.ifaces ==> IfaceOk(s, n') && (n' != n ==> s'.ifaces[n'] == s.ifaces[n'])
    ensures forall n' :: n' in s'.ifaces ==> IfaceOk(s', n')
  {
    forall n' | n' in s'.ifaces ensures IfaceOk(s', n') {
      assert IfaceOk(s, n') && SameIface(s.ifaces[n'], s'.ifaces[n']);
      forall v ensures v in s'.ifaces[n'].users <==> Belongs(s'.rules, v, n') {
        assert v in s.ifaces[n'].users <==> Belongs(s.rules, v, n');
        if v.id in s.rules {
          assert SameUser(s, s', v, u);
        }
      }
    }
  }

  /** Who is attached does not matter to the account. */
  lemma LedgerFrame(s: State, s': State)
    requires Balanced(s) && s'.ops == s.ops && s.rules.Keys == s'.rules.Keys
    requires forall id :: id in s.rules ==>
               var r, r' := s.rules[id], s'.rules[id];
               r.inIf == r'.inIf && r.outIf == r'.outIf && r.inDev == r'.inDev && r.outDev == r'.outDev
    ensures Balanced(s')
  {
    forall id: nat ensures AccountOf(s'.ops, id) == Expected(s'.rules, id) {
      assert AccountOf(s.ops, id) == Expected(s.rules, id);
    }
  }

  // ----- a new interface

  lemma AttachKeeps(s: State, id: nat, n: string)
    requires Core(s) && id in s.rules && n in s.ifaces
    requires forall side :: s.rules[id].If(side) == Some(n) ==> !s.rules[id].User(side)
    ensures var s' := Attach(s, id, n);
            && Core(s')
            && (forall v: User :: v.id in s.rules && v.id != id ==> SameUser(s, s', v, User(id, In)))
            && (forall side ::
                  s.rules[id].If(side) == s'.rules[id].If(side)
                  && s'.rules[id].User(side) == (s.rules[id].User(side) || s.rules[id].If(side) == Some(n)))
            && (forall n' :: n' in s.ifaces ==> SameIface(s.ifaces[n'], s'.ifaces[n']))
            && (s.ifaces[n].up || forall side :: s'.rules[id].Dev(side) == s.rules[id].Dev(side))
  {
    hide Core, AddUser;
    var r := s.rules[id];
    assert (r.inIf == Some(n) ==> r.inDev == "") && (r.outIf == Some(n) ==> r.outDev == "") by {
      CoreUser(s, User(id, In));
      CoreUser(s, User(id, Out));
    }
    if !r.Ready() {
      var s1 := if r.outIf == Some(n) then AddUser(s, User(id, Out), n) else s;
      if r.outIf == Some(n) {
        assert !r.User(Out);
        AddUserKeeps(s, User(id, Out), n);
        assert SameUser(s, s1, User(id, In), User(id, Out));
      }
      if r.inIf == Some(n) {
        assert !r.User(In);
        AddUserKeeps(s1, User(id, In), n);
        assert SameUser(s1, Attach(s, id, n), User(id, Out), User(id, In));
      }
    } else {
      assert forall side :: r.If(side) != Some(n);
    }
  }

  /** Nobody names a new interface as attached before it is there. */
  ghost predicate Unattached(s: State, id: nat, n: string)
    requires id in s.rules
  {
    forall side :: s.rules[id].If(side) == Some(n) ==> !s.rules[id].User(side)
  }

  ghost predicate Gained(s: State, s': State, v: User, n: string, ids: seq<nat>)
    requires v.id in s.rules && v.id in s'.rules
  {
    var r, r' := s.rules[v.id], s'.rules[v.id];
    && r.If(v.side) == r'.If(v.side) && r.Dev(v.side) == r'.Dev(v.side)
    && r'.User(v.side) == (r.User(v.side) || (v.id in ids && r.If(v.side) == Some(n)))
  }

  lemma {:induction false} AttachAllKeeps(s: State, ids: seq<nat>, n: string)
    requires Core(s) && n in s.ifaces && !s.ifaces[n].up && NoDup(ids)
    requires forall id :: id in ids ==> id in s.rules && Unattached(s, id, n)
    ensures var s' := AttachAll(s, ids, n);
            && Core(s') && s'.rules.Keys == s.rules.Keys && s'.ifaces.Keys == s.ifaces.Keys && s'.order == s.order
            && (forall v: User :: v.id in s.rules ==> Gained(s, s', v, n, ids))
            && (forall n' :: n' in s.ifaces ==> SameIface(s.ifaces[n'], s'.ifaces[n']))
    decreases |ids|
  {
    hide Core, Attach;
    if ids != [] {
      var first, rest := ids[0], ids[1..];
      assert ids == [first] + rest && first in ids;
      AttachKeeps(s, first, n);
      var s1 := Attach(s, first, n);
      assert forall k :: 0 <= k < |rest| ==> rest[k] == ids[k + 1];
      assert first !in rest;
      forall v: User | v.id in s.rules ensures Gained(s, s1, v, n, [first]) {
        if v.id != first {
          assert SameUser(s, s1, v, User(first, In));
        }
      }
      forall id | id in rest ensures id in s1.rules && Unattached(s1, id, n) {
        assert id in ids && Unattached(s, id, n);
        forall side | s1.rules[id].If(side) == Some(n) ensures !s1.rules[id].User(side) {
          assert Gained(s, s1, User(id, side), n, [first]);
        }
      }
      AttachAllKeeps(s1, rest, n);
      var s2 := AttachAll(s1, rest, n);
      forall v: User | v.id in s.rules ensures Gained(s, s2, v, n, ids) {
        assert Gained(s, s1, v, n, [first]) && Gained(s1, s2, v, n, rest);
      }
    }
  }

  lemma CreateKeeps(s: State, n: string)
    requires Inv(s) && n !in s.ifaces
    ensures Inv(Step(s, Create(n)))
    ensures Step(s, Create(n)).rules.Keys == s.rules.Keys
    ensures Step(s, Create(n)).ifaces.Keys == s.ifaces.Keys + {n}
    ensures forall v: User :: v.id in s.rules ==> Gained(s, Step(s, Create(n)), v, n, s.order)
    ensures forall n' :: n' in s.ifaces ==> SameIface(s.ifaces[n'], Step(s, Create(n)).ifaces[n'])
    ensures n in Step(s, Create(n)).ifaces && !Step(s, Create(n)).ifaces[n].announced
  {
    hide Balanced, AttachAll;
    var s1 := SetIface(s, n, Iface(false, false, None, []));
    assert Core(s1) by {
      BalancedFrame(s, s1);
      forall u: User | u.id in s.rules ensures UserOk(s1, u) && !Belongs(s.rules, u, n) {
        assert UserOk(s, u);
      }
      forall n' | n' in s1.ifaces ensures IfaceOk(s1, n') {
        assert n' in s.ifaces ==> IfaceOk(s, n');
      }
    }
    forall id | id in s.order ensures Unattached(s1, id, n) {
      assert UserOk(s, User(id, In)) && UserOk(s, User(id, Out));
    }
    AttachAllKeeps(s1, s.order, n);
    var s' := Step(s, Create(n));
    forall v: User | v.id in s.rules ensures Gained(s, s', v, n, s.order) && AttachedTo(s', v) {
      assert Gained(s1, s', v, n, s.order) && AttachedTo(s, v);
    }
    CoreIsClosed(s');
    assert SameIface(s1.ifaces[n], s'.ifaces[n]);
    forall n' | n' in s.ifaces ensures SameIface(s.ifaces[n'], s'.ifaces[n']) {
      assert SameIface(s1.ifaces[n'], s'.ifaces[n']);
    }
  }

  // ----- an interface goes

  lemma {:induction false} DetachedIs(rules: map<nat, Rule>, users: seq<User>)
    requires UsersKnown(rules, users)
    ensures forall u: User :: u.id in rules ==>
              var r, r' := rules[u.id], Detached(rules, users)[u.id];
              && r.If(u.side) == r'.If(u.side) && r.Dev(u.side) == r'.Dev(u.side)
              && r'.User(u.side) == (r.User(u.side) && u !in users)
    decreases |users|
  {
    if users != [] {
      var rules1 := rules[users[0].id := rules[users[0].id].WithUser(users[0].side, false)];
      DetachedIs(rules1, users[1..]);
      assert users == [users[0]] + users[1..];
    }
  }

  lemma RemoveKeeps(s: State, n: string)
    requires Inv(s) && n in s.ifaces
    ensures Inv(Step(s, Remove(n)))
  {
    hide Balanced, Deliver, Detached;
    assert IfaceOk(s, n);
    assert ReadyToTell(s, n, Free) by {
      forall u: User | u.id in s.rules ensures UserOk(s, u) {}
    }
    TellKeeps(s, n, Free);
    var s1 := Tell(s, n, Free);
    DetachedIs(s1.rules, s.ifaces[n].users);
    var s' := Step(s, Remove(n));
    forall u: User | u.id in s'.rules ensures UserOk(s', u) && AttachedTo(s', u) {
      assert UserOk(s1, u) && AttachedTo(s, u) && SameLinks(s.rules[u.id], s1.rules[u.id]);
      assert u in s.ifaces[n].users <==> Belongs(s.rules, u, n);
    }
    forall n' | n' in s'.ifaces ensures IfaceOk(s', n') {
      assert IfaceOk(s1, n');
      forall u ensures u in s'.ifaces[n'].users <==> Belongs(s'.rules, u, n') {
        assert u in s1.ifaces[n'].users <==> Belongs(s1.rules, u, n');
        if u.id in s1.rules {
          assert u in s.ifaces[n].users <==> Belongs(s.rules, u, n);
          assert SameLinks(s.rules[u.id], s1.rules[u.id]);
        }
      }
    }
    assert Balanced(s') by { RemoveBalanced(s1, s'); }
    CoreIsClosed(s');
  }

  lemma RemoveBalanced(s: State, s': State)
    requires Balanced(s) && s'.ops == s.ops && s.rules.Keys == s'.rules.Keys
    requires forall u: User :: u.id in s.rules ==>
               s.rules[u.id].If(u.side) == s'.rules[u.id].If(u.side)
               && s.rules[u.id].Dev(u.side) == s'.rules[u.id].Dev(u.side)
    ensures Balanced(s')
  {
    forall id | id in s.rules
      ensures var r, r' := s.rules[id], s'.rules[id];
              r.inIf == r'.inIf && r.outIf == r'.outIf && r.inDev == r'.inDev && r.outDev == r'.outDev
    {
      assert User(id, In).id in s.rules && User(id, Out).id in s.rules;
    }
    LedgerFrame(s, s');
  }

  // ----- a new rule

  lemma RegisterSideKeeps(s: State, u: User)
    requires Core(s) && u.id in s.rules && !s.rules[u.id].User(u.side)
    ensures var s' := RegisterSide(s, u);
            Core(s') && OnlyUser(s, s', u) && AttachedTo(s', u)
    ensures var n, s' := s.rules[u.id].If(u.side), RegisterSide(s, u);
            s'.rules[u.id].Dev(u.side)
            == if n.Some? && n.value in s.ifaces && s.ifaces[n.value].up && s.ifaces[n.value].l3.Some?
               then s.ifaces[n.value].l3.value else ""
  {
    hide Balanced, AddUser;
    var n := s.rules[u.id].If(u.side);
    assert UserOk(s, u);
    if n.Some? && n.value in s.ifaces {
      AddUserKeeps(s, u, n.value);
      assert SameUser(s, RegisterSide(s, u), u, u);
    }
  }

  function Inserted(s: State, id: nat, pos: nat, inIf: Option<string>, outIf: Option<string>): State
    requires pos <= |s.order|
  {
    s.(order := s.order[..pos] + [id] + s.order[pos..],
       rules := s.rules[id := Rule(inIf, outIf, false, false, "", "")],
       ops := if inIf.None? && outIf.None? then s.ops + [Add(id, "", "")] else s.ops)
  }

  lemma InsertedKeeps(s: State, id: nat, pos: nat, inIf: Option<string>, outIf: Option<string>)
    requires Inv(s) && id !in s.rules && pos <= |s.order|
    ensures var s' := Inserted(s, id, pos, inIf, outIf);
            && Core(s') && NoDup(s'.order) && (forall i :: i in s'.order <==> i in s'.rules)
            && s'.rules.Keys == s.rules.Keys + {id} && s'.ifaces == s.ifaces
            && s'.rules == s.rules[id := Rule(inIf, outIf, false, false, "", "")]
            && (forall v: User :: v.id in s.rules ==> AttachedTo(s', v))
  {
    hide AccountOf;
    var s' := Inserted(s, id, pos, inIf, outIf);
    if s'.ops != s.ops {
      AccountStep(s.ops, Add(id, "", ""));
    }
    forall i: nat ensures AccountOf(s'.ops, i) == Expected(s'.rules, i) {
      assert AccountOf(s.ops, i) == Expected(s.rules, i);
    }
    forall u: User | u.id in s'.rules ensures UserOk(s', u) {
      assert u.id in s.rules ==> UserOk(s, u);
    }
    forall n | n in s'.ifaces ensures IfaceOk(s', n) {
      assert IfaceOk(s, n);
    }
    forall v: User | v.id in s.rules ensures AttachedTo(s', v) {
      assert AttachedTo(s, v);
    }
    assert id !in s.order;
  }

  lemma NewRuleIs(s: State, id: nat, pos: nat, inIf: Option<string>, outIf: Option<string>)
    requires id !in s.rules && pos <= |s.order|
    ensures var s1 := Inserted(s, id, pos, inIf, outIf);
            NewRule(s, id, pos, inIf, outIf)
            == if inIf.None? && outIf.None? then s1 else RegisterSide(RegisterSide(s1, User(id, In)), User(id, Out))
  {
    hide RegisterSide;
    var s1 := Inserted(s, id, pos, inIf, outIf);
    assert s1.ops == s.ops || (inIf.None? && outIf.None?);
  }

  lemma AddRuleKeeps(s: State, id: nat, pos: nat, inIf: Option<string>, outIf: Option<string>)
    requires Inv(s) && id !in s.rules && pos <= |s.order|
    ensures Inv(NewRule(s, id, pos, inIf, outIf))
  {
    hide Core, RegisterSide, Inv, UsersKnown, NewRule, Inserted;
    NewRuleIs(s, id, pos, inIf, outIf);
    InsertedKeeps(s, id, pos, inIf, outIf);
    var s1, s' := Inserted(s, id, pos, inIf, outIf), NewRule(s, id, pos, inIf, outIf);
    if inIf.Some? || outIf.Some? {
      assert forall side :: !s1.rules[id].User(side);
      RegisterBothKeeps(s1, id);
    }
    forall v: User | v.id in s'.rules ensures AttachedTo(s', v) {
      if v.id != id {
        assert AttachedTo(s1, v);
        assert s1 == s' || SameUser(s1, s', v, User(id, In));
      }
    }
    CoreIsClosed(s');
    InvParts(s');
  }

  /** What a new rule changes for the others, and the names it finds. */
  lemma AddRuleNames(s: State, id: nat, pos: nat, inIf: Option<string>, outIf: Option<string>)
    requires Inv(s) && id !in s.rules && pos <= |s.order|
    ensures var s' := NewRule(s, id, pos, inIf, outIf);
            && s'.rules.Keys == s.rules.Keys + {id} && s'.ifaces.Keys == s.ifaces.Keys
            && (forall v: User :: v.id in s.rules ==> SameUser(s, s', v, User(id, In)))
            && (forall n :: n in s.ifaces ==> SameIface(s.ifaces[n], s'.ifaces[n]))
            && (forall side :: s'.rules[id].If(side) == (if side == In then inIf else outIf)
                               && s'.rules[id].Dev(side) == NameOnArrival(s, s'.rules[id].If(side)))
  {
    hide Core, RegisterSide, Inv, NewRule, Inserted, NameOnArrival, SameIface, AttachedTo;
    NewRuleIs(s, id, pos, inIf, outIf);
    InsertedKeeps(s, id, pos, inIf, outIf);
    var s1, s' := Inserted(s, id, pos, inIf, outIf), NewRule(s, id, pos, inIf, outIf);
    forall v: User | v.id in s.rules ensures SameUser(s, s1, v, User(id, In)) {}
    forall n | n in s.ifaces ensures SameIface(s.ifaces[n], s1.ifaces[n]) {
      SameIfaceSelf(s.ifaces[n]);
    }
    NameFrame(s, s1, inIf);
    NameFrame(s, s1, outIf);
    assert s1.rules[id].If(In) == inIf && s1.rules[id].If(Out) == outIf;
    if inIf.Some? || outIf.Some? {
      RegisterBothKeeps(s1, id);
      forall v: User | v.id in s.rules ensures SameUser(s, s', v, User(id, In)) {
        assert SameUser(s, s1, v, User(id, In)) && SameUser(s1, s', v, User(id, In));
      }
    }
    forall side ensures s'.rules[id].If(side) == (if side == In then inIf else outIf)
                        && s'.rules[id].Dev(side) == NameOnArrival(s, s'.rules[id].If(side))
    {
      assert side == In || side == Out;
    }
  }

  lemma SameIfaceSelf(i: Iface)
    ensures SameIface(i, i)
  {
  }

  lemma NameFrame(s: State, s': State, n: Option<string>)
    requires s'.ifaces == s.ifaces
    ensures NameOnArrival(s, n) == NameOnArrival(s', n)
    ensures n.None? ==> NameOnArrival(s, n) == ""
  {
  }

  lemma RegisterBothKeeps(s: State, id: nat)
    requires Core(s) && id in s.rules && forall side :: !s.rules[id].User(side)
    ensures var s' := RegisterSide(RegisterSide(s, User(id, In)), User(id, Out));
            && Core(s') && (forall side :: AttachedTo(s', User(id, side)))
            && (forall v: User :: v.id in s.rules && v.id != id ==> SameUser(s, s', v, User(id, In)))
            && (forall n :: n in s.ifaces ==> SameIface(s.ifaces[n], s'.ifaces[n]))
            && (forall side :: s'.rules[id].If(side) == s.rules[id].If(side))
            && (forall side :: s'.rules[id].Dev(side) == NameOnArrival(s, s.rules[id].If(side)))
  {
    hide Core, RegisterSide;
    var a, b := User(id, In), User(id, Out);
    assert !s.rules[id].User(In) && !s.rules[id].User(Out);
    RegisterSideKeeps(s, a);
    var s1 := RegisterSide(s, a);
    assert SameUser(s, s1, b, a) && SameUser(s, s1, a, a);
    RegisterSideKeeps(s1, b);
    var s' := RegisterSide(s1, b);
    assert SameUser(s1, s', a, b) && SameUser(s1, s', b, b);
    assert AttachedTo(s1, a) && AttachedTo(s', b);
    forall n | n in s.ifaces ensures SameIface(s.ifaces[n], s'.ifaces[n]) && SameIface(s.ifaces[n], s1.ifaces[n]) {
      assert SameIface(s1.ifaces[n], s'.ifaces[n]);
    }
    forall v: User | v.id in s.rules && v.id != id ensures SameUser(s, s', v, a) {
      assert SameUser(s, s1, v, a) && SameUser(s1, s', v, b);
    }
    forall side ensures AttachedTo(s', User(id, side)) && s'.rules[id].If(side) == s.rules[id].If(side)
                        && s'.rules[id].Dev(side) == NameOnArrival(s, s.rules[id].If(side))
    {
      assert side == In || side == Out;
    }
  }

  /** The name a rule finds when it arrives. */
  function NameOnArrival(s: State, n: Option<string>): string
  {
    if n.Some? && n.value in s.ifaces && s.ifaces[n.value].up && s.ifaces[n.value].l3.Some?
    then s.ifaces[n.value].l3.value else ""
  }

  // ----- a rule goes

  /** Only rule `u.id` changes, and `u` leaves the list it was on. */
  ghost predicate Left(s: State, s': State, u: User)
    requires u.id in s.rules
  {
    && s'.rules.Keys == s.rules.Keys && s'.ifaces.Keys == s.ifaces.Keys
    && s'.order == s.order && s'.ops == s.ops
    && (forall id :: id in s.rules && id != u.id ==> s'.rules[id] == s.rules[id])
    && (forall v: User :: v.id == u.id && v != u ==> s'.rules[v.id].User(v.side) == s.rules[v.id].User(v.side))
    && (forall side :: s'.rules[u.id].If(side) == s.rules[u.id].If(side))
    && (forall n :: n in s.ifaces ==> LeftIface(s.ifaces[n], s'.ifaces[n], u))
  }

  ghost predicate LeftIface(i: Iface, i': Iface, u: User)
  {
    SameIface(i, i') && NoDup(i'.users) && forall v :: v in i'.users <==> v in i.users && v != u
  }

  lemma DeregisterSideLeaves(s: State, u: User)
    requires u.id in s.rules && LinkOk(s, u)
    requires forall n :: n in s.ifaces ==> NoDup(s.ifaces[n].users)
    requires forall n :: n in s.ifaces ==> (u in s.ifaces[n].users <==> Belongs(s.rules, u, n))
    ensures Left(s, DeregisterSide(s, u), u)
  {
    var r := s.rules[u.id];
    var s' := DeregisterSide(s, u);
    if r.User(u.side) {
      WithoutIs(s.ifaces[r.If(u.side).value].users, u);
    }
    forall n | n in s.ifaces ensures LeftIface(s.ifaces[n], s'.ifaces[n], u) {
      assert u in s.ifaces[n].users <==> Belongs(s.rules, u, n);
    }
  }

  lemma DelRuleKeeps(s: State, id: nat)
    requires Inv(s) && id in s.rules
    ensures var s' := OldRule(s, id);
            && Inv(s') && s'.rules == s.rules - {id} && s'.ifaces.Keys == s.ifaces.Keys
            && (forall n :: n in s.ifaces ==> SameIface(s.ifaces[n], s'.ifaces[n]))
  {
    hide DeregisterSide, Balanced, Inv, UserOk, IfaceOk, LeftIface, SameIface, AttachedTo, Without, UsersKnown;
    var r := s.rules[id];
    var s1 := if r.Ready() then s.(ops := s.ops + [Del(id, r.inDev, r.outDev)]) else s;
    DeregisterBothLeaves(s, s1, id);
    var s2 := DeregisterSide(s1, User(id, In));
    var s' := OldRule(s, id);
    InvParts(s);
    WithoutIs(s.order, id);
    assert s'.rules == s.rules - {id};
    DelRuleFacts(s, s2, s', id);
    DelBalanced(s, s', id);
    OrderIs(s);
    CoreIsClosed(s');
    InvParts(s');
  }

  lemma OrderIs(s: State)
    requires Inv(s)
    ensures forall id :: id in s.order <==> id in s.rules
  {
  }

  lemma DeregisterBothLeaves(s: State, s1: State, id: nat)
    requires Inv(s) && id in s.rules && s1.rules == s.rules && s1.ifaces == s.ifaces && s1.order == s.order
    ensures Left(s1, DeregisterSide(s1, User(id, In)), User(id, In))
    ensures Left(DeregisterSide(s1, User(id, In)), DeregisterSide(DeregisterSide(s1, User(id, In)), User(id, Out)),
                 User(id, Out))
  {
    hide DeregisterSide, Balanced;
    var a, b := User(id, In), User(id, Out);
    assert UserOk(s, a) && UserOk(s, b);
    forall n | n in s.ifaces ensures IfaceOk(s, n) {}
    DeregisterSideLeaves(s1, a);
    var s2 := DeregisterSide(s1, a);
    assert s2.rules[id].If(Out) == s1.rules[id].If(Out);
    forall n | n in s2.ifaces
      ensures NoDup(s2.ifaces[n].users) && (b in s2.ifaces[n].users <==> Belongs(s2.rules, b, n))
    {
      assert LeftIface(s1.ifaces[n], s2.ifaces[n], a) && IfaceOk(s, n);
      assert b in s.ifaces[n].users <==> Belongs(s.rules, b, n);
    }
    assert LinkOk(s2, b);
    DeregisterSideLeaves(s2, b);
  }

  lemma DelRuleFacts(s: State, s2: State, s': State, id: nat)
    requires Inv(s) && id in s.rules && s'.rules == s.rules - {id}
    requires s2.ifaces.Keys == s.ifaces.Keys == s'.ifaces.Keys
    requires forall n :: n in s.ifaces ==>
               LeftIface(s.ifaces[n], s2.ifaces[n], User(id, In))
               && LeftIface(s2.ifaces[n], s'.ifaces[n], User(id, Out))
    ensures forall u: User :: u.id in s'.rules ==> UserOk(s', u) && AttachedTo(s', u)
    ensures forall n :: n in s'.ifaces ==> IfaceOk(s', n) && SameIface(s.ifaces[n], s'.ifaces[n])
  {
    hide Balanced;
    forall n | n in s'.ifaces ensures IfaceOk(s', n) && SameIface(s.ifaces[n], s'.ifaces[n]) {
      assert IfaceOk(s, n);
      assert LeftIface(s.ifaces[n], s2.ifaces[n], User(id, In));
      assert LeftIface(s2.ifaces[n], s'.ifaces[n], User(id, Out));
      forall u ensures u in s'.ifaces[n].users <==> Belongs(s'.rules, u, n) {
        assert u in s.ifaces[n].users <==> Belongs(s.rules, u, n);
        assert u.id == id ==> u == User(id, In) || u == User(id, Out);
      }
    }
    forall u: User | u.id in s'.rules ensures UserOk(s', u) && AttachedTo(s', u) {
      assert UserOk(s, u) && AttachedTo(s, u);
    }
  }

  lemma DelBalanced(s: State, s': State, id: nat)
    requires Balanced(s) && id in s.rules && s'.rules == s.rules - {id}
    requires var r := s.rules[id];
             s'.ops == if r.Ready() then s.ops + [Del(id, r.inDev, r.outDev)] else s.ops
    ensures Balanced(s')
  {
    hide AccountOf;
    var r := s.rules[id];
    if r.Ready() {
      AccountStep(s.ops, Del(id, r.inDev, r.outDev));
    }
    forall i: nat ensures AccountOf(s'.ops, i) == Expected(s'.rules, i) {
      assert AccountOf(s.ops, i) == Expected(s.rules, i);
    }
  }

  // ----- every run

  lemma StepKeeps(s: State, h: Happening)
    requires Inv(s) && Possible(s, h)
    ensures Inv(Step(s, h))
  {
    hide Inv, NewRule, OldRule, AttachAll, Deliver;
    match h
    case Create(n) => CreateKeeps(s, n);
    case Remove(n) => RemoveKeeps(s, n);
    case AddRule(id, pos, inIf, outIf) => AddRuleKeeps(s, id, pos, inIf, outIf);
    case DelRule(id) => DelRuleKeeps(s, id);
    case _ => InterfaceStepKeeps(s, h);
  }

  /** A run from the start; what cannot happen is skipped. */
  ghost function Run(hs: seq<Happening>): State
  {
    if hs == [] then EMPTY
    else
      var s, h := Run(hs[..|hs| - 1]), hs[|hs| - 1];
      if Closed(s) && Possible(s, h) then Step(s, h) else s
  }

  lemma {:induction false} RunKeepsInv(hs: seq<Happening>)
    ensures Inv(Run(hs))
  {
    if hs != [] {
      hide Inv;
      RunKeepsInv(hs[..|hs| - 1]);
      var s, h := Run(hs[..|hs| - 1]), hs[|hs| - 1];
      if Closed(s) && Possible(s, h) {
        StepKeeps(s, h);
      }
    }
  }

  /** After every run the kernel holds each ready rule once, under the device names that the rule
      knows, and no other; no rule was ever added twice or deleted under other names. */
  lemma KernelHoldsReadyRules(hs: seq<Happening>, id: nat)
    ensures AccountOf(Run(hs).ops, id) == Expected(Run(hs).rules, id)
  {
    hide AccountOf, Run, Expected;
    RunKeepsInv(hs);
  }

  /** A rule follows exactly the interfaces that it names and that exist. */
  lemma FollowsWhatExists(hs: seq<Happening>, u: User)
    requires u.id in Run(hs).rules
    ensures var s := Run(hs);
            var r := s.rules[u.id];
            r.User(u.side) <==> r.If(u.side).Some? && r.If(u.side).value in s.ifaces
  {
    hide Run, Balanced;
    RunKeepsInv(hs);
    assert UserOk(Run(hs), u) && AttachedTo(Run(hs), u);
  }

  // ----- rules and interfaces in step

  /** The name an interface stands for. */
  function Current(i: Iface): string
  {
    if i.announced && i.l3.Some? then i.l3.value else ""
  }

  ghost predicate NameSynced(s: State, u: User)
    requires u.id in s.rules && LinkOk(s, u)
  {
    var r := s.rules[u.id];
    r.User(u.side) ==> r.Dev(u.side) == Current(s.ifaces[r.If(u.side).value])
  }

  ghost predicate Synced(s: State)
  {
    forall u: User :: u.id in s.rules ==> LinkOk(s, u) && NameSynced(s, u)
  }

  /** The name of the device behind an interface that a rule refers to; empty when the interface
      does not exist, is not up or has no device. */
  function Behind(s: State, n: Option<string>): string
  {
    if n.Some? && n.value in s.ifaces then Current(s.ifaces[n.value]) else ""
  }

  /** Nothing that the rules should be told about and are not: an interface that rules follow keeps the
      name it stands for when its device changes, and a new rule finds the names in force. */
  predicate Steady(s: State, h: Happening)
    requires Possible(s, h)
  {
    match h
    case SetL3(n, dev) =>
      s.ifaces[n].users == [] || Current(s.ifaces[n].(l3 := dev)) == Current(s.ifaces[n])
    case AddRule(_, _, inIf, outIf) =>
      NameOnArrival(s, inIf) == Behind(s, inIf) && NameOnArrival(s, outIf) == Behind(s, outIf)
    case _ => true
  }

  ghost predicate SteadyRun(hs: seq<Happening>)
  {
    hs != [] ==>
      var s, h := Run(hs[..|hs| - 1]), hs[|hs| - 1];
      SteadyRun(hs[..|hs| - 1]) && (Closed(s) && Possible(s, h) ==> Steady(s, h))
  }

  lemma FollowerIsUser(s: State, u: User)
    requires Inv(s) && u.id in s.rules && s.rules[u.id].User(u.side)
    ensures LinkOk(s, u) && u in s.ifaces[s.rules[u.id].If(u.side).value].users
  {
    assert UserOk(s, u) && IfaceOk(s, s.rules[u.id].If(u.side).value);
    assert Belongs(s.rules, u, s.rules[u.id].If(u.side).value);
  }

  lemma SyncedTold(s: State, h: Happening)
    requires Inv(s) && Possible(s, h) && Told(h) && Steady(s, h) && Synced(s)
    ensures Synced(Step(s, h))
  {
    hide Balanced, Deliver, Step, IfaceOk;
    ToldStep(s, h);
    var s1 := SetIface(s, h.n, NextIface(s.ifaces[h.n], h));
    TellKeeps(s1, h.n, EventOf(h));
    var s' := Step(s, h);
    forall u: User | u.id in s'.rules ensures LinkOk(s', u) && NameSynced(s', u) {
      assert UserOk(s, u) && NameSynced(s, u) && SameLinks(s1.rules[u.id], s'.rules[u.id]);
      if s.rules[u.id].User(u.side) {
        FollowerIsUser(s, u);
      }
    }
  }

  lemma SyncedRemove(s: State, n: string)
    requires Inv(s) && n in s.ifaces && Synced(s)
    ensures Synced(Step(s, Remove(n)))
  {
    hide Balanced, Deliver, Detached;
    assert IfaceOk(s, n);
    assert ReadyToTell(s, n, Free) by {
      forall u: User | u.id in s.rules ensures UserOk(s, u) {}
    }
    TellKeeps(s, n, Free);
    var s1 := Tell(s, n, Free);
    DetachedIs(s1.rules, s.ifaces[n].users);
    var s' := Step(s, Remove(n));
    forall u: User | u.id in s'.rules ensures LinkOk(s', u) && NameSynced(s', u) {
      assert UserOk(s, u) && NameSynced(s, u) && SameLinks(s.rules[u.id], s1.rules[u.id]);
      assert u in s.ifaces[n].users <==> Belongs(s.rules, u, n);
    }
  }

  lemma SyncedRules(s: State, h: Happening)
    requires Inv(s) && Possible(s, h) && (h.Create? || h.AddRule? || h.DelRule?) && Steady(s, h) && Synced(s)
    ensures Synced(Step(s, h))
  {
    hide Core, Balanced, AttachAll, NewRule, OldRule, Closed;
    StepKeeps(s, h);
    var s' := Step(s, h);
    assert Core(s') && Complete(s') && Complete(s);
    forall u: User | u.id in s'.rules ensures UserOk(s', u) {
      CoreUser(s', u);
    }
    match h {
      case Create(n) =>
        CreateKeeps(s, n);
        forall u: User | u.id in s'.rules ensures NameSynced(s', u) {
          assert Gained(s, s', u, n, s.order) && NameSynced(s, u) && UserOk(s', u);
        }
      case AddRule(id, pos, inIf, outIf) =>
        AddRuleNames(s, id, pos, inIf, outIf);
        forall u: User | u.id in s'.rules ensures NameSynced(s', u) {
          assert UserOk(s', u);
          if u.id != id {
            assert SameUser(s, s', u, User(id, In)) && NameSynced(s, u);
          } else {
            assert s'.rules[id].Dev(u.side) == NameOnArrival(s, s'.rules[id].If(u.side));
          }
        }
      case DelRule(id) =>
        DelRuleKeeps(s, id);
        forall u: User | u.id in s'.rules ensures NameSynced(s', u) {
          assert NameSynced(s, u) && UserOk(s', u);
        }
    }
  }

  lemma SteadyStepSynced(s: State, h: Happening)
    requires Inv(s) && Possible(s, h) && Steady(s, h) && Synced(s)
    ensures Synced(Step(s, h))
  {
    hide Inv, Synced, Step, Steady;
    match h
    case Create(_) => SyncedRules(s, h);
    case AddRule(_, _, _, _) => SyncedRules(s, h);
    case DelRule(_) => SyncedRules(s, h);
    case Remove(n) => SyncedRemove(s, n);
    case _ => SyncedTold(s, h);
  }

  lemma NotSyncedAt(s: State, u: User)
    requires u.id in s.rules && LinkOk(s, u) && !NameSynced(s, u)
    ensures !Synced(s)
  {
  }

  /** An interface that rules follow takes another name: none of them is told. */
  lemma RenamedNotSynced(s: State, n: string, dev: Option<string>)
    requires Inv(s) && n in s.ifaces && Synced(s) && !Steady(s, SetL3(n, dev))
    ensures !Synced(Step(s, SetL3(n, dev)))
  {
    hide Balanced;
    var u := s.ifaces[n].users[0];
    assert IfaceOk(s, n) && u in s.ifaces[n].users;
    assert Belongs(s.rules, u, n) && NameSynced(s, u);
    var s' := Step(s, SetL3(n, dev));
    NotSyncedAt(s', u);
  }

  lemma ArrivalNotSynced(s: State, h: Happening)
    requires Inv(s) && h.AddRule? && Possible(s, h) && !Steady(s, h)
    ensures !Synced(Step(s, h))
  {
    hide Core, Balanced, NewRule, Closed;
    var id, s' := h.id, Step(s, h);
    AddRuleNames(s, id, h.pos, h.inIf, h.outIf);
    StepKeeps(s, h);
    var side := if NameOnArrival(s, h.inIf) != Behind(s, h.inIf) then In else Out;
    var n := s'.rules[id].If(side);
    assert n == if side == In then h.inIf else h.outIf;
    assert AttachedTo(s', User(id, side));
    assert n.Some? && n.value in s.ifaces && SameIface(s.ifaces[n.value], s'.ifaces[n.value]);
    CoreUser(s', User(id, side));
    NotSyncedAt(s', User(id, side));
  }

  /** If every rule knows the names behind its interfaces, then the step keeps it so exactly if it is
      steady. */
  lemma StepSyncedIff(s: State, h: Happening)
    requires Inv(s) && Possible(s, h) && Synced(s)
    ensures Synced(Step(s, h)) <==> Steady(s, h)
  {
    hide Inv, Synced, Step;
    if Steady(s, h) {
      SteadyStepSynced(s, h);
    } else if h.SetL3? {
      RenamedNotSynced(s, h.n, h.dev);
    } else {
      ArrivalNotSynced(s, h);
    }
  }

  lemma StartSynced()
    ensures Synced(Run([]))
  {
  }

  lemma {:induction false} RunSynced(hs: seq<Happening>)
    requires SteadyRun(hs)
    ensures Synced(Run(hs))
  {
    if hs == [] {
      StartSynced();
    } else {
      hide Inv, Synced, Step, Steady;
      RunSynced(hs[..|hs| - 1]);
      RunKeepsInv(hs[..|hs| - 1]);
      var s, h := Run(hs[..|hs| - 1]), hs[|hs| - 1];
      if Closed(s) && Possible(s, h) {
        SteadyStepSynced(s, h);
      }
    }
  }

  /** At every moment of the run the rules know the names behind their interfaces. */
  ghost predicate SyncedThroughout(hs: seq<Happening>)
  {
    Synced(Run(hs)) && (hs != [] ==> SyncedThroughout(hs[..|hs| - 1]))
  }

  /** The rules know the names behind their interfaces at every moment of a run exactly if each of its
      steps is steady. */
  lemma {:induction false} SyncedThroughoutIffSteady(hs: seq<Happening>)
    ensures SyncedThroughout(hs) <==> SteadyRun(hs)
  {
    hide Inv, Synced, Step, Steady;
    if hs == [] {
      StartSynced();
    } else {
      SyncedThroughoutIffSteady(hs[..|hs| - 1]);
      if SteadyRun(hs) {
        RunSynced(hs);
      } else if SteadyRun(hs[..|hs| - 1]) {
        var s, h := Run(hs[..|hs| - 1]), hs[|hs| - 1];
        RunKeepsInv(hs[..|hs| - 1]);
        RunSynced(hs[..|hs| - 1]);
        StepSyncedIff(s, h);
      }
    }
  }

  /** What the kernel should hold for a rule, going by the interfaces alone. */
  function ByInterfaces(s: State, r: Rule): Account
  {
    var i, o := Behind(s, r.inIf), Behind(s, r.outIf);
    if (r.inIf.Some? && i == "") || (r.outIf.Some? && o == "") then Clear else Installed(i, o)
  }

  /** The kernel holds for every rule what the interfaces call for. */
  ghost predicate KernelRight(s: State)
  {
    forall id :: id in s.rules ==> AccountOf(s.ops, id) == ByInterfaces(s, s.rules[id])
  }

  lemma SyncedKernelRight(s: State)
    requires Inv(s) && Synced(s)
    ensures KernelRight(s)
  {
    hide AccountOf;
    forall id | id in s.rules ensures AccountOf(s.ops, id) == ByInterfaces(s, s.rules[id]) {
      var a, b := User(id, In), User(id, Out);
      assert UserOk(s, a) && UserOk(s, b) && AttachedTo(s, a) && AttachedTo(s, b);
      assert NameSynced(s, a) && NameSynced(s, b);
      assert AccountOf(s.ops, id) == Expected(s.rules, id);
    }
  }

  /** End to end: in a run of steady steps a rule is in the kernel exactly while every interface it
      names is up with a named device, and under the names of these devices. */
  lemma InstalledIffInterfacesUp(hs: seq<Happening>, id: nat)
    requires SteadyRun(hs) && id in Run(hs).rules
    ensures AccountOf(Run(hs).ops, id) == ByInterfaces(Run(hs), Run(hs).rules[id])
  {
    hide AccountOf, Run, SteadyRun, Inv, Synced;
    RunKeepsInv(hs);
    RunSynced(hs);
    SyncedKernelRight(Run(hs));
  }

  /** The rule waits for another interface than `n`. */
  predicate Blocked(s: State, u: User, n: string)
    requires u.id in s.rules
  {
    var other := s.rules[u.id].If(if u.side == In then Out else In);
    other.Some? && other != Some(n) && Behind(s, other) == ""
  }

  /** The step leaves the kernel right: it is steady, or the rules that miss it wait for another
      interface anyway. */
  ghost predicate Harmless(s: State, h: Happening)
    requires Inv(s) && Possible(s, h)
  {
    Steady(s, h)
    || match h
       case SetL3(n, _) => forall u :: Belongs(s.rules, u, n) ==> Blocked(s, u, n)
       case AddRule(_, _, inIf, outIf) =>
         (inIf.Some? && Behind(s, inIf) == "") || (outIf.Some? && Behind(s, outIf) == "")
       case _ => true
  }

  /** What the interfaces call for changes exactly if the rule names the interface and does not wait
      for another one. */
  lemma RenamedCall(s: State, n: string, dev: Option<string>, id: nat)
    requires n in s.ifaces && id in s.rules && Current(s.ifaces[n].(l3 := dev)) != Current(s.ifaces[n])
    ensures var s', r := SetIface(s, n, s.ifaces[n].(l3 := dev)), s.rules[id];
            ByInterfaces(s', r) == ByInterfaces(s, r)
            <==> (r.inIf == Some(n) ==> Blocked(s, User(id, In), n))
                 && (r.outIf == Some(n) ==> Blocked(s, User(id, Out), n))
  {
  }

  lemma RenamedKernelRightIff(s: State, n: string, dev: Option<string>)
    requires Inv(s) && n in s.ifaces && Synced(s) && !Steady(s, SetL3(n, dev))
    ensures KernelRight(Step(s, SetL3(n, dev)))
            <==> forall u :: Belongs(s.rules, u, n) ==> Blocked(s, u, n)
  {
    hide AccountOf, Core, Complete, Synced, ByInterfaces, Blocked, Belongs;
    SyncedKernelRight(s);
    var s' := Step(s, SetL3(n, dev));
    forall id | id in s.rules
      ensures AccountOf(s'.ops, id) == ByInterfaces(s', s'.rules[id])
              <==> (Belongs(s.rules, User(id, In), n) ==> Blocked(s, User(id, In), n))
                   && (Belongs(s.rules, User(id, Out), n) ==> Blocked(s, User(id, Out), n))
    {
      RenamedCall(s, n, dev, id);
      NamedFollows(s, User(id, In), n);
      NamedFollows(s, User(id, Out), n);
      assert AccountOf(s.ops, id) == ByInterfaces(s, s.rules[id]);
    }
    forall u | Belongs(s.rules, u, n) ensures u.id in s.rules && u == User(u.id, u.side) {
      BelongsKnown(s, u, n);
    }
    if forall u :: Belongs(s.rules, u, n) ==> Blocked(s, u, n) {
      assert KernelRight(s');
    } else {
      var u :| Belongs(s.rules, u, n) && !Blocked(s, u, n);
      assert u.side == In || u.side == Out;
      assert AccountOf(s'.ops, u.id) != ByInterfaces(s', s'.rules[u.id]);
    }
  }

  lemma BelongsKnown(s: State, u: User, n: string)
    requires Belongs(s.rules, u, n)
    ensures u.id in s.rules
  {
  }

  lemma NamedFollows(s: State, u: User, n: string)
    requires Inv(s) && n in s.ifaces && u.id in s.rules
    ensures s.rules[u.id].If(u.side) == Some(n) <==> Belongs(s.rules, u, n)
  {
    hide Balanced;
    assert AttachedTo(s, u);
  }

  lemma ArrivalKernelRightIff(s: State, h: Happening)
    requires Inv(s) && h.AddRule? && Possible(s, h) && Synced(s) && !Steady(s, h)
    ensures KernelRight(Step(s, h))
            <==> (h.inIf.Some? && Behind(s, h.inIf) == "") || (h.outIf.Some? && Behind(s, h.outIf) == "")
  {
    hide AccountOf, Core, Complete, Synced, Step;
    var id, s' := h.id, Step(s, h);
    ArrivalElsewhere(s, h);
    ArrivalAccount(s, h);
    if KernelRight(s') {
      assert AccountOf(s'.ops, id) == ByInterfaces(s', s'.rules[id]);
    } else {
      var i :| i in s'.rules && AccountOf(s'.ops, i) != ByInterfaces(s', s'.rules[i]);
      assert i == id;
    }
  }

  lemma SameBehind(s: State, s': State, n: Option<string>)
    requires s.ifaces.Keys == s'.ifaces.Keys
    requires forall m :: m in s.ifaces ==> SameIface(s.ifaces[m], s'.ifaces[m])
    ensures Behind(s, n) == Behind(s', n)
  {
  }

  /** The account of the other rules, and what the interfaces call for, stay. */
  lemma ArrivalElsewhere(s: State, h: Happening)
    requires Inv(s) && h.AddRule? && Possible(s, h) && Synced(s)
    ensures var s' := Step(s, h);
            forall i :: i in s'.rules && i != h.id ==> AccountOf(s'.ops, i) == ByInterfaces(s', s'.rules[i])
  {
    hide AccountOf, Core, Complete, Synced, NewRule, SameIface, Behind, Balanced, NameOnArrival;
    var s' := Step(s, h);
    SyncedKernelRight(s);
    AddRuleNames(s, h.id, h.pos, h.inIf, h.outIf);
    StepKeeps(s, h);
    InvParts(s);
    InvParts(s');
    forall i | i in s'.rules && i != h.id ensures AccountOf(s'.ops, i) == ByInterfaces(s', s'.rules[i]) {
      assert SameUser(s, s', User(i, In), User(h.id, In)) && SameUser(s, s', User(i, Out), User(h.id, In));
      BalancedAt(s, i);
      BalancedAt(s', i);
      SameBehind(s, s', s.rules[i].inIf);
      SameBehind(s, s', s.rules[i].outIf);
      assert AccountOf(s.ops, i) == ByInterfaces(s, s.rules[i]);
    }
  }

  lemma BalancedAt(s: State, id: nat)
    requires Balanced(s)
    ensures AccountOf(s.ops, id) == Expected(s.rules, id)
  {
  }

  /** A rule that arrives finds the name in force or none. */
  lemma ArrivalName(s: State, n: Option<string>)
    requires Inv(s)
    ensures NameOnArrival(s, n) == Behind(s, n) || NameOnArrival(s, n) == ""
  {
    hide Balanced;
    if n.Some? && n.value in s.ifaces {
      assert IfaceOk(s, n.value);
    }
  }

  lemma ArrivalAccount(s: State, h: Happening)
    requires Inv(s) && h.AddRule? && Possible(s, h) && Synced(s) && !Steady(s, h)
    ensures var s' := Step(s, h);
            h.id in s'.rules
            && (AccountOf(s'.ops, h.id) == ByInterfaces(s', s'.rules[h.id])
                <==> (h.inIf.Some? && Behind(s, h.inIf) == "") || (h.outIf.Some? && Behind(s, h.outIf) == ""))
  {
    hide AccountOf, Core, Complete, Synced, NewRule, SameIface, Balanced, NameOnArrival;
    var s' := Step(s, h);
    AddRuleNames(s, h.id, h.pos, h.inIf, h.outIf);
    StepKeeps(s, h);
    InvParts(s');
    BalancedAt(s', h.id);
    SameBehind(s, s', h.inIf);
    SameBehind(s, s', h.outIf);
    ArrivalName(s, h.inIf);
    ArrivalName(s, h.outIf);
    hide Behind;
    var r := s'.rules[h.id];
    assert r.If(In) == h.inIf && r.If(Out) == h.outIf;
    assert r.Dev(In) == NameOnArrival(s, h.inIf) && r.Dev(Out) == NameOnArrival(s, h.outIf);
  }

  /** From a state in which the rules know the names behind their interfaces, a step leaves the kernel
      with what the interfaces call for exactly if it is harmless. */
  lemma StepKernelRightIff(s: State, h: Happening)
    requires Inv(s) && Possible(s, h) && Synced(s)
    ensures KernelRight(Step(s, h)) <==> Harmless(s, h)
  {
    hide Core, Complete, Synced, Step, KernelRight, Steady;
    if Steady(s, h) {
      SteadyStepSynced(s, h);
      StepKeeps(s, h);
      SyncedKernelRight(Step(s, h));
    } else if h.SetL3? {
      RenamedKernelRightIff(s, h.n, h.dev);
    } else {
      UnsteadyKinds(s, h);
      ArrivalKernelRightIff(s, h);
    }
  }

  lemma UnsteadyKinds(s: State, h: Happening)
    requires Possible(s, h) && !Steady(s, h)
    ensures h.SetL3? || h.AddRule?
  {
  }

  /** Rules are not told when the protocol handler changes the device of an interface that is up: the
      kernel keeps the rule under the old name. */
  lemma ChangedDeviceLeavesOldRule()
    ensures var hs := [Create("wan"), SetL3("wan", Some("a")), AddRule(0, 0, Some("wan"), None), Raise("wan"),
                       SetL3("wan", Some("b"))];
            0 in Run(hs).rules
            && AccountOf(Run(hs).ops, 0) == Installed("a", "")
            && ByInterfaces(Run(hs), Run(hs).rules[0]) == Installed("b", "")
  {
    hide Run, Step, AccountOf, Closed;
    var h1, h2, h3 := Create("wan"), SetL3("wan", Some("a")), AddRule(0, 0, Some("wan"), None);
    var h4, h5 := Raise("wan"), SetL3("wan", Some("b"));
    var s1 := State([], map[], map["wan" := Iface(false, false, None, [])], []);
    var s2 := State([], map[], map["wan" := Iface(false, false, Some("a"), [])], []);
    var u := User(0, In);
    var r3 := Rule(Some("wan"), None, true, false, "", "");
    var s3 := State([0], map[0 := r3], map["wan" := Iface(false, false, Some("a"), [u])], []);
    var r4 := r3.(inDev := "a");
    var up := Iface(true, true, Some("a"), [u]);
    var s4 := State([0], map[0 := r4], map["wan" := up], [Add(0, "a", "")]);
    var s5 := s4.(ifaces := map["wan" := up.(l3 := Some("b"))]);
    RunStart();
    FirstSteps(s1, s2, s3);
    LastSteps(s3, s4, s5);
    assert [] + [h1] == [h1] && [h1] + [h2] == [h1, h2] && [h1, h2] + [h3] == [h1, h2, h3];
    assert [h1, h2, h3] + [h4] == [h1, h2, h3, h4] && [h1, h2, h3, h4] + [h5] == [h1, h2, h3, h4, h5];
    RunMore([], h1, EMPTY, s1);
    RunMore([h1], h2, s1, s2);
    RunMore([h1, h2], h3, s2, s3);
    RunMore([h1, h2, h3], h4, s3, s4);
    RunMore([h1, h2, h3, h4], h5, s4, s5);
    assert AccountOf(s5.ops, 0) == Installed("a", "") by { OneAdd(s5.ops); }
  }

  lemma OneAdd(ops: seq<Op>)
    requires ops == [Add(0, "a", "")]
    ensures AccountOf(ops, 0) == Installed("a", "")
  {
    assert ops[..|ops| - 1] == [];
  }

  lemma RunStart()
    ensures Run([]) == EMPTY
  {
  }

  lemma RunMore(hs: seq<Happening>, h: Happening, s: State, s': State)
    requires Run(hs) == s && Closed(s) && Possible(s, h) && Step(s, h) == s'
    ensures Run(hs + [h]) == s'
  {
    hide Step;
    assert (hs + [h])[..|hs|] == hs;
  }

  lemma FirstSteps(s1: State, s2: State, s3: State)
    requires s1 == State([], map[], map["wan" := Iface(false, false, None, [])], [])
    requires s2 == State([], map[], map["wan" := Iface(false, false, Some("a"), [])], [])
    requires s3 == State([0], map[0 := Rule(Some("wan"), None, true, false, "", "")],
                         map["wan" := Iface(false, false, Some("a"), [User(0, In)])], [])
    ensures Closed(EMPTY) && Step(EMPTY, Create("wan")) == s1
    ensures Closed(s1) && Step(s1, SetL3("wan", Some("a"))) == s2
    ensures Closed(s2) && Step(s2, AddRule(0, 0, Some("wan"), None)) == s3
  {
    var n := NewRule(s2, 0, 0, Some("wan"), None);
    assert n.order == [0];
    assert [User(0, In)] + [] == [User(0, In)];
    assert n == s3;
  }

  lemma LastSteps(s3: State, s4: State, s5: State)
    requires s3 == State([0], map[0 := Rule(Some("wan"), None, true, false, "", "")],
                         map["wan" := Iface(false, false, Some("a"), [User(0, In)])], [])
    requires s4 == State([0], map[0 := Rule(Some("wan"), None, true, false, "a", "")],
                         map["wan" := Iface(true, true, Some("a"), [User(0, In)])], [Add(0, "a", "")])
    requires s5 == s4.(ifaces := map["wan" := Iface(true, true, Some("b"), [User(0, In)])])
    ensures Closed(s3) && Step(s3, Raise("wan")) == s4
    ensures Closed(s4) && Step(s4, SetL3("wan", Some("b"))) == s5
  {
    var u := User(0, In);
    var t := SetIface(s3, "wan", Iface(true, true, Some("a"), [u]));
    assert t.ifaces == s4.ifaces;
    assert [u][1..] == [];
    assert Deliver(t, [u], Some("a"), Up) == RuleCb(t, u, Some("a"), Up);
    assert RuleCb(t, u, Some("a"), Up) == s4;
  }

  // ----- the code

  /** The rule table and the interfaces it listens to. */
  class RuleTable {
    var order: seq<nat>
    var rules: map<nat, Rule>
    var ifaces: map<string, Iface>
    var ops: seq<Op>

    function View(): State
      reads this
    {
      State(order, rules, ifaces, ops)
    }

    constructor ()
      ensures View() == EMPTY
    {
      order, rules, ifaces, ops := [], map[], map[], [];
    }

    /** rule_in_cb, rule_out_cb */
    method RuleCallback(u: User, l3: Option<string>, ev: Event)
      requires u.id in rules
      modifies this
      ensures View() == RuleCb(old(View()), u, l3, ev)
    {
      var rule := rules[u.id];
      match ev {
        case Up =>
          if l3.Some? {
            rules := rules[u.id := rule.WithDev(u.side, l3.value)];
            if rules[u.id].Ready() {
              ops := ops + [Add(u.id, rules[u.id].inDev, rules[u.id].outDev)];
            }
          }
        case Other =>
        case _ =>
          if rule.Ready() {
            ops := ops + [Del(u.id, rule.inDev, rule.outDev)];
          }
          rules := rules[u.id := rule.WithDev(u.side, "")];
      }
    }

    /** interface_event */
    method InterfaceEvent(n: string, ev: Event)
      requires n in ifaces && UsersKnown(rules, ifaces[n].users)
      modifies this
      ensures View() == Tell(old(View()), n, ev)
    {
      hide RuleCb;
      var users, l3 := ifaces[n].users, ifaces[n].l3;
      assert users[0..] == users;
      for i := 0 to |users|
        invariant UsersKnown(rules, users)
        invariant Deliver(View(), users[i..], l3, ev) == Deliver(old(View()), users, l3, ev)
      {
        ghost var left := users[i..];
        assert left[0] == users[i] && left[1..] == users[i + 1..] && users[i] in users;
        RuleCallback(users[i], l3, ev);
      }
    }

    /** interface_add_user */
    method InterfaceAddUser(u: User, n: string)
      requires u.id in rules && n in ifaces
      modifies this
      ensures View() == AddUser(old(View()), u, n)
    {
      rules := rules[u.id := rules[u.id].WithUser(u.side, true)];
      ifaces := ifaces[n := ifaces[n].(users := [u] + ifaces[n].users)];
      if ifaces[n].up {
        RuleCallback(u, ifaces[n].l3, Up);
      }
    }

    /** interface_remove_user */
    method InterfaceRemoveUser(u: User, n: string)
      requires u.id in rules && n in ifaces
      modifies this
      ensures View() == RemoveUser(old(View()), u, n)
    {
      ifaces := ifaces[n := ifaces[n].(users := Without(ifaces[n].users, u))];
      rules := rules[u.id := rules[u.id].WithUser(u.side, false)];
    }

    /** register_interfaces */
    method RegisterInterfaces(id: nat)
      requires id in rules
      modifies this
      ensures View() == RegisterSide(RegisterSide(old(View()), User(id, In)), User(id, Out))
    {
      if rules[id].inIf.Some? && rules[id].inIf.value in ifaces {
        InterfaceAddUser(User(id, In), rules[id].inIf.value);
      }
      assert View() == RegisterSide(old(View()), User(id, In));
      if rules[id].outIf.Some? && rules[id].outIf.value in ifaces {
        InterfaceAddUser(User(id, Out), rules[id].outIf.value);
      }
    }

    /** deregister_interfaces */
    method DeregisterInterfaces(id: nat)
      requires id in rules
      modifies this
      ensures View() == DeregisterSide(DeregisterSide(old(View()), User(id, In)), User(id, Out))
    {
      if rules[id].inIf.Some? && rules[id].inUser && rules[id].inIf.value in ifaces {
        InterfaceRemoveUser(User(id, In), rules[id].inIf.value);
      }
      assert View() == DeregisterSide(old(View()), User(id, In));
      if rules[id].outIf.Some? && rules[id].outUser && rules[id].outIf.value in ifaces {
        InterfaceRemoveUser(User(id, Out), rules[id].outIf.value);
      }
    }

    /** iprule_update_rule, the part for the new rule */
    method RuleAdded(id: nat, pos: nat, inIf: Option<string>, outIf: Option<string>)
      requires id !in rules && pos <= |order|
      modifies this
      ensures View() == NewRule(old(View()), id, pos, inIf, outIf)
    {
      hide RegisterSide;
      order := order[..pos] + [id] + order[pos..];
      rules := rules[id := Rule(inIf, outIf, false, false, "", "")];
      if inIf.Some? || outIf.Some? {
        RegisterInterfaces(id);
      } else {
        ops := ops + [Add(id, "", "")];
      }
    }

    /** iprule_update_rule, the part for the old rule */
    method RuleRemoved(id: nat)
      requires id in rules
      modifies this
      ensures View() == OldRule(old(View()), id)
    {
      hide DeregisterSide, Without;
      if rules[id].Ready() {
        ops := ops + [Del(id, rules[id].inDev, rules[id].outDev)];
      }
      DeregisterInterfaces(id);
      order := Without(order, id);
      rules := rules - {id};
    }

    /** generic_interface_cb */
    method InterfaceCreated(n: string)
      requires n in ifaces && forall id :: id in order ==> id in rules
      modifies this
      ensures View() == AttachAll(old(View()), old(order), n)
    {
      hide AddUser;
      var ids := order;
      assert ids[0..] == ids;
      for i := 0 to |ids|
        invariant n in ifaces && forall id :: id in ids ==> id in rules
        invariant AttachAll(View(), ids[i..], n) == AttachAll(old(View()), ids, n)
      {
        ghost var before, left := View(), ids[i..];
        var id := ids[i];
        assert left[0] == id && left[1..] == ids[i + 1..] && id in ids;
        if !rules[id].Ready() {
          var rule := rules[id];
          if rule.outIf == Some(n) {
            InterfaceAddUser(User(id, Out), n);
          }
          if rule.inIf == Some(n) {
            InterfaceAddUser(User(id, In), n);
          }
        }
        assert View() == Attach(before, id, n);
      }
    }

    /** One happening. */
    method Handle(h: Happening)
      requires Inv(View()) && Possible(View(), h)
      modifies this
      ensures View() == Step(old(View()), h) && Inv(View())
    {
      hide Core, Complete, NewRule, OldRule, AttachAll, Deliver, Detached;
      StepKeeps(View(), h);
      match h {
        case Create(n) =>
          ifaces := ifaces[n := Iface(false, false, None, [])];
          InterfaceCreated(n);
        case Raise(n) =>
          ifaces := ifaces[n := ifaces[n].(up := true, announced := true)];
          InterfaceEvent(n, Up);
        case Leave(n) =>
          ifaces := ifaces[n := ifaces[n].(up := false)];
        case Lower(n, failed) =>
          ifaces := ifaces[n := ifaces[n].(up := false, announced := false)];
          InterfaceEvent(n, if failed then UpFailed else Down);
        case Note(n) =>
          InterfaceEvent(n, Other);
        case SetL3(n, dev) =>
          ifaces := ifaces[n := ifaces[n].(l3 := dev)];
        case Remove(n) =>
          InterfaceEvent(n, Free);
          rules := Detached(rules, ifaces[n].users);
          ifaces := ifaces - {n};
        case AddRule(id, pos, inIf, outIf) =>
          RuleAdded(id, pos, inIf, outIf);
        case DelRule(id) =>
          RuleRemoved(id);
      }
    }
  }
}
