/** The port registry: bindings by id, and the index from an external port to its owner. */
module Ports {
  import opened Wrappers
  import opened Ordering

  /** Protocol and external port. The source writes the key as a text, `KeyText`, which no two
      pairs share.
   */
  datatype Key = Key(protocol: string, port: int)

  datatype Binding = Binding(
    id: string, projectID: string, protocol: string, externalPort: int, internalPort: int, reserved: bool)
  {
    function At(): Key { Key(protocol, externalPort) }
  }

  datatype Registry = Registry(bindings: map<string, Binding>, byExternal: map<Key, string>)

  function Digits(n: nat): string {
    if n < 10 then ["0123456789"[n]] else Digits(n / 10) + ["0123456789"[n % 10]]
  }

  function Decimal(n: int): string {
    if n < 0 then "-" + Digits(-n) else Digits(n)
  }

  function KeyText(k: Key): string {
    k.protocol + "/" + Decimal(k.port)
  }

  /** The part behind the last slash is the number, so that no two keys have the same text. */
  lemma KeyTextInjective(k: Key, l: Key)
    requires KeyText(k) == KeyText(l)
    ensures k == l
  {
    hide Decimal;
    DecimalShape(k.port);
    DecimalShape(l.port);
    assert KeyText(k) == k.protocol + ['/'] + Decimal(k.port) && KeyText(l) == l.protocol + ['/'] + Decimal(l.port);
    LastField('/', k.protocol, l.protocol, Decimal(k.port), Decimal(l.port));
    DecimalInjective(k.port, l.port);
  }

  predicate IsDigit(c: char) { '0' <= c <= '9' }

  lemma {:induction false} DigitsShape(n: nat)
    ensures Digits(n) != [] && (|Digits(n)| == 1 <==> n < 10)
    ensures forall i :: 0 <= i < |Digits(n)| ==> IsDigit(Digits(n)[i])
  {
    if n >= 10 {
      DigitsShape(n / 10);
    }
  }

  lemma {:induction false} DigitsInjective(m: nat, n: nat)
    requires Digits(m) == Digits(n)
    ensures m == n
  {
    DigitsShape(m);
    DigitsShape(n);
    if m >= 10 {
      var s, t := Digits(m / 10), Digits(n / 10);
      assert Digits(m)[..|Digits(m)| - 1] == s && Digits(n)[..|Digits(n)| - 1] == t;
      DigitsInjective(m / 10, n / 10);
      assert Digits(m)[|s|] == "0123456789"[m % 10] && Digits(n)[|t|] == "0123456789"[n % 10];
    }
  }

  lemma DecimalShape(n: int)
    ensures '/' !in Decimal(n) && Decimal(n) != []
    ensures if n < 0 then Decimal(n)[0] == '-' && Decimal(n)[1..] == Digits(-n) else Decimal(n)[0] != '-'
  {
    DigitsShape(if n < 0 then -n else n);
  }

  lemma DecimalInjective(m: int, n: int)
    requires Decimal(m) == Decimal(n)
    ensures m == n
  {
    hide Digits;
    DecimalShape(m);
    DecimalShape(n);
    if m < 0 {
      DigitsInjective(-m, -n);
    } else {
      DigitsInjective(m, n);
    }
  }

  function GeneratedID(projectID: string, port: int): (id: string)
    ensures id != ""
  {
    "port_" + projectID + "_" + Decimal(port)
  }

  /** The binding as it is filed: with an id of its own or a generated one. */
  function Filed(b: Binding): (f: Binding)
    ensures f.id != "" && f.At() == b.At() && f.projectID == b.projectID
  {
    b.(id := if b.id == "" then GeneratedID(b.projectID, b.externalPort) else b.id, reserved := true)
  }

  predicate Conflicts(r: Registry, b: Binding) {
    b.At() in r.byExternal && r.byExternal[b.At()] != b.id
  }

  function Reserved(r: Registry, b: Binding): Registry {
    if Conflicts(r, b) then r
    else Registry(r.bindings[Filed(b).id := Filed(b)], r.byExternal[b.At() := Filed(b).id])
  }

  function Released(r: Registry, id: string): Registry {
    if id !in r.bindings then r
    else Registry(r.bindings - {id}, r.byExternal - {r.bindings[id].At()})
  }

  class MemoryPortRegistry {
    var bindings: map<string, Binding>
    var byExternal: map<Key, string>

    constructor ()
      ensures View() == Registry(map[], map[])
    {
      bindings, byExternal := map[], map[];
    }

    ghost function View(): Registry
      reads this
    {
      Registry(bindings, byExternal)
    }

    method Reserve(binding: Binding) returns (r: Option<Binding>)
      modifies this
      ensures View() == Reserved(old(View()), binding)
      ensures r == if Conflicts(old(View()), binding) then None else Some(Filed(binding))
    {
      var key := Key(binding.protocol, binding.externalPort);
      if key in byExternal && byExternal[key] != binding.id {
        return None;
      }
      var b := binding;
      if b.id == "" {
        b := b.(id := "port_" + b.projectID + "_" + Decimal(b.externalPort));
      }
      b := b.(reserved := true);
      bindings := bindings[b.id := b];
      byExternal := byExternal[key := b.id];
      return Some(b);
    }

    method Release(id: string) returns (found: bool)
      modifies this
      ensures View() == Released(old(View()), id) && (found <==> id in old(bindings))
    {
      if id !in bindings {
        return false;
      }
      var binding := bindings[id];
      bindings := bindings - {id};
      byExternal := byExternal - {Key(binding.protocol, binding.externalPort)};
      return true;
    }

    /** The project's bindings, each once, in no particular order. */
    method List(projectID: string) returns (out: seq<Binding>)
      requires Indexed(View())
      ensures Distinct(out)
      ensures forall b :: b in out <==> b.id in bindings && bindings[b.id] == b && b.projectID == projectID
    {
      out := [];
      var todo := bindings.Keys;
      while todo != {}
        invariant todo <= bindings.Keys && Distinct(out)
        invariant forall b :: b in out <==>
                  b.id in bindings && b.id !in todo && bindings[b.id] == b && b.projectID == projectID
        decreases |todo|
      {
        var id :| id in todo;
        todo := todo - {id};
        assert bindings[id].id == id;
        if bindings[id].projectID == projectID {
          out := out + [bindings[id]];
        }
      }
    }
  }

  // ------------------------------------------------------------------------ histories

  datatype Operation = Reserve(binding: Binding) | Release(id: string)

  function Replay(ops: seq<Operation>): Registry {
    if ops == [] then Registry(map[], map[])
    else
      var r := Replay(ops[..|ops| - 1]);
      match ops[|ops| - 1]
      case Reserve(b) => Reserved(r, b)
      case Release(id) => Released(r, id)
  }

  /** Every live binding is filed under its id and is the owner indexed under its port. */
  ghost predicate Indexed(r: Registry) {
    && (forall id :: id in r.bindings ==>
         r.bindings[id].id == id && r.bindings[id].At() in r.byExternal && r.byExternal[r.bindings[id].At()] == id)
    && forall k :: k in r.byExternal ==> r.byExternal[k] != ""
  }

  /** The index leads from every key to a live binding of that key. */
  ghost predicate Inverse(r: Registry) {
    forall k :: k in r.byExternal ==> r.byExternal[k] in r.bindings && r.bindings[r.byExternal[k]].At() == k
  }

  /** After every history all live bindings are indexed, so that no two of them share a port. */
  lemma {:induction false} NoPortTwice(ops: seq<Operation>)
    ensures Indexed(Replay(ops))
    ensures forall a, b :: a in Replay(ops).bindings && b in Replay(ops).bindings && a != b ==>
                             Replay(ops).bindings[a].At() != Replay(ops).bindings[b].At()
  {
    if ops != [] {
      NoPortTwice(ops[..|ops| - 1]);
      var r := Replay(ops[..|ops| - 1]);
      match ops[|ops| - 1] {
        case Reserve(b) => ReserveIndexes(r, b);
        case Release(id) => ReleaseIndexes(r, id);
      }
    }
  }

  lemma ReserveIndexes(r: Registry, b: Binding)
    requires Indexed(r)
    ensures Indexed(Reserved(r, b))
  {
  }

  lemma ReleaseIndexes(r: Registry, id: string)
    requires Indexed(r)
    ensures Indexed(Released(r, id))
  {
  }

  /** The id is live under another port, and would leave that port behind. */
  predicate MovesAway(r: Registry, b: Binding) {
    Filed(b).id in r.bindings && r.bindings[Filed(b).id].At() != b.At()
  }

  /** A reservation keeps the index an exact inverse exactly when it is refused or its id is not
      live under another port; a release always keeps it.
   */
  lemma InverseKept(r: Registry, b: Binding, id: string)
    requires Indexed(r) && Inverse(r)
    ensures Inverse(Reserved(r, b)) <==> Conflicts(r, b) || !MovesAway(r, b)
    ensures Inverse(Released(r, id))
  {
    if !Conflicts(r, b) && MovesAway(r, b) {
      var old' := r.bindings[Filed(b).id].At();
      assert Reserved(r, b).byExternal[old'] == Filed(b).id;
    }
  }

  /** No operation of the history reserves a live id under another port. */
  ghost predicate Steady(ops: seq<Operation>) {
    forall n :: 0 <= n < |ops| && ops[n].Reserve? ==>
                  Conflicts(Replay(ops[..n]), ops[n].binding) || !MovesAway(Replay(ops[..n]), ops[n].binding)
  }

  /** In such a history the index is the exact inverse, and a released port is free again. */
  lemma {:induction false} SteadyInverse(ops: seq<Operation>)
    requires Steady(ops)
    ensures Inverse(Replay(ops))
    ensures forall id :: id in Replay(ops).bindings ==>
              Replay(ops).bindings[id].At() !in Released(Replay(ops), id).byExternal
  {
    if ops != [] {
      var init := ops[..|ops| - 1];
      assert forall n :: 0 <= n < |init| ==> init[..n] == ops[..n] && init[n] == ops[n];
      SteadyInverse(init);
      NoPortTwice(init);
      match ops[|ops| - 1] {
        case Reserve(b) => InverseKept(Replay(init), b, "");
        case Release(id) => InverseKept(Replay(init), Binding("", "", "", 0, 0, false), id);
      }
    }
  }

  /** A port that was left behind stays taken: after the move and the release of the id, nobody
      else can reserve it.
   */
  lemma LeftBehind(r: Registry, b: Binding, other: Binding)
    requires Indexed(r) && MovesAway(r, b) && !Conflicts(r, b)
    requires other.At() == r.bindings[Filed(b).id].At() && other.id != Filed(b).id
    ensures Conflicts(Released(Reserved(r, b), Filed(b).id), other)
  {
    assert r.byExternal[other.At()] == Filed(b).id;
  }
}
