/**
  When two identifiers belong to one entity: exactly when alerts link them, each alert tying together
  the identifiers of one domain that it carries.
*/
module Identities {
  datatype Kind = AgentUid | Hostname | Mac | ProcessGuid | Upn | Username | Ip | BareIp
  datatype Domain = Host | User | Bare
  datatype Ident = Ident(kind: Kind, value: string)

  /** A process pins to its host; addresses are not durable. */
  function DomainOf(k: Kind): Domain {
    match k
    case AgentUid => Host
    case Hostname => Host
    case Mac => Host
    case ProcessGuid => Host
    case Upn => User
    case Username => User
    case Ip => Bare
    case BareIp => Bare
  }

  predicate Durable(x: Ident) {
    DomainOf(x.kind) != Bare
  }

  /** What one alert ties together. */
  type Group = set<Ident>

  // ---------------------------------------------------------------------------------------------
  // Links through alerts
  // ---------------------------------------------------------------------------------------------

  ghost predicate CoOccur(groups: set<Group>, a: Ident, b: Ident) {
    exists g :: g in groups && a in g && b in g
  }

  ghost predicate Path(groups: set<Group>, path: seq<Ident>) {
    |path| > 0 && forall i :: 0 < i < |path| ==> CoOccur(groups, path[i - 1], path[i])
  }

  /** A chain of alerts leads from `a` to `b`. */
  ghost predicate Linked(groups: set<Group>, a: Ident, b: Ident) {
    exists path :: Path(groups, path) && path[0] == a && path[|path| - 1] == b
  }

  /** No group straddles `s`. */
  ghost predicate Closed(groups: set<Group>, s: set<Ident>) {
    forall g, a, b :: g in groups && a in g && b in g && a in s ==> b in s
  }

  /** Whatever is closed and holds `a` holds `b`. */
  ghost predicate Dragged(groups: set<Group>, a: Ident, b: Ident) {
    forall s: set<Ident> :: Closed(groups, s) && a in s ==> b in s
  }

  // ---------------------------------------------------------------------------------------------
  // The owner map
  // ---------------------------------------------------------------------------------------------

  ghost predicate Together(groups: set<Group>, owner: map<Ident, int>) {
    forall g, a, b :: g in groups && a in g && b in g ==> a in owner && b in owner && owner[a] == owner[b]
  }

  ghost predicate Tied(groups: set<Group>, owner: map<Ident, int>) {
    forall a, b :: a in owner && b in owner && owner[a] == owner[b] ==> Dragged(groups, a, b)
  }

  ghost predicate Faithful(groups: set<Group>, owner: map<Ident, int>) {
    Together(groups, owner) && Tied(groups, owner)
  }

  lemma {:induction false} PathStaysTogether(groups: set<Group>, owner: map<Ident, int>, path: seq<Ident>)
    requires Together(groups, owner) && Path(groups, path) && path[0] in owner
    ensures path[|path| - 1] in owner && owner[path[|path| - 1]] == owner[path[0]]
  {
    if |path| > 1 {
      var n := |path| - 1;
      var init := path[..n];
      forall i | 0 < i < |init| ensures CoOccur(groups, init[i - 1], init[i]) {
        assert CoOccur(groups, path[i - 1], path[i]);
      }
      PathStaysTogether(groups, owner, init);
      assert CoOccur(groups, path[n - 1], path[n]);
    }
  }

  lemma LinkedOnwards(groups: set<Group>, a: Ident, b: Ident, d: Ident)
    requires Linked(groups, a, b) && CoOccur(groups, b, d)
    ensures Linked(groups, a, d)
  {
    var path :| Path(groups, path) && path[0] == a && path[|path| - 1] == b;
    var more := path + [d];
    forall i | 0 < i < |more| ensures CoOccur(groups, more[i - 1], more[i]) {
      if i < |path| { assert CoOccur(groups, path[i - 1], path[i]); }
    }
    assert Path(groups, more) && more[0] == a && more[|more| - 1] == d;
  }

  /** Two identifiers share an owner if and only if a chain of alerts links them. */
  lemma SameOwnerIffLinked(groups: set<Group>, owner: map<Ident, int>, a: Ident, b: Ident)
    requires Faithful(groups, owner) && a in owner && b in owner
    ensures owner[a] == owner[b] <==> Linked(groups, a, b)
  {
    if owner[a] == owner[b] {
      var s := set x | x in owner && Linked(groups, a, x);
      assert Path(groups, [a]) && [a][0] == a;
      forall g, x, y | g in groups && x in g && y in g && x in s ensures y in s {
        assert CoOccur(groups, x, y);
        LinkedOnwards(groups, a, x, y);
      }
      assert Closed(groups, s);
      assert Dragged(groups, a, b);
    }
    if Linked(groups, a, b) {
      var path :| Path(groups, path) && path[0] == a && path[|path| - 1] == b;
      PathStaysTogether(groups, owner, path);
    }
  }

  // ---------------------------------------------------------------------------------------------
  // One more alert; forgetting entities
  // ---------------------------------------------------------------------------------------------

  /** Everything owned by `found` goes to `u`. */
  function Fused(owner: map<Ident, int>, found: set<int>, u: int): map<Ident, int> {
    map x | x in owner :: if owner[x] in found then u else owner[x]
  }

  function Remapped(index: map<Ident, int>, ids: set<Ident>, u: int): map<Ident, int> {
    map x | x in index.Keys + ids :: if x in ids then u else index[x]
  }

  ghost predicate OwnersOf(owner: map<Ident, int>, g: Group, found: set<int>) {
    && (forall x :: x in g && x in owner ==> owner[x] in found)
    && (forall f :: f in found ==> exists x :: x in g && x in owner && owner[x] == f)
  }

  lemma ClosedIsLess(groups: set<Group>, g: Group, s: set<Ident>)
    requires Closed(groups + {g}, s)
    ensures Closed(groups, s)
  {
  }

  lemma GroupIsDragged(groups: set<Group>, owner: map<Ident, int>, g: Group, found: set<int>, a: Ident, b: Ident)
    requires Faithful(groups, owner) && OwnersOf(owner, g, found) && b in g
    requires a in g || (a in owner && owner[a] in found)
    ensures Dragged(groups + {g}, a, b) && Dragged(groups + {g}, b, a)
  {
    forall s: set<Ident> | Closed(groups + {g}, s) ensures a in s <==> b in s {
      ClosedIsLess(groups, g, s);
      assert g in groups + {g};
      if a !in g {
        var x :| x in g && x in owner && owner[x] == owner[a];
        assert Dragged(groups, a, x) && Dragged(groups, x, a);
      }
    }
  }

  lemma DraggedThrough(groups: set<Group>, a: Ident, x: Ident, b: Ident)
    requires Dragged(groups, a, x) && Dragged(groups, x, b)
    ensures Dragged(groups, a, b)
  {
  }

  lemma StillDragged(groups: set<Group>, g: Group, a: Ident, b: Ident)
    requires Dragged(groups, a, b)
    ensures Dragged(groups + {g}, a, b)
  {
    forall s: set<Ident> | Closed(groups + {g}, s) && a in s ensures b in s {
      ClosedIsLess(groups, g, s);
    }
  }

  /** One more alert: its identifiers and all entities they meet become one. */
  lemma FusingIsFaithful(groups: set<Group>, owner: map<Ident, int>, g: Group, found: set<int>, u: int)
    requires Faithful(groups, owner) && g != {} && OwnersOf(owner, g, found)
    requires u in found || (found == {} && u !in owner.Values)
    ensures Faithful(groups + {g}, Remapped(Fused(owner, found, u), g, u))
  {
    var next := Remapped(Fused(owner, found, u), g, u);
    var more := groups + {g};
    var x :| x in g;
    forall a, b | a in next && b in next && next[a] == next[b] ensures Dragged(more, a, b) {
      if next[a] == u {
        assert a in g || (a in owner && owner[a] in found);
        assert b in g || (b in owner && owner[b] in found);
        GroupIsDragged(groups, owner, g, found, a, x);
        GroupIsDragged(groups, owner, g, found, b, x);
        DraggedThrough(more, a, x, b);
      } else {
        assert Dragged(groups, a, b);
        StillDragged(groups, g, a, b);
      }
    }
  }

  function Surviving(owner: map<Ident, int>, live: set<int>): map<Ident, int> {
    map x | x in owner && owner[x] in live :: owner[x]
  }

  /** Groups whose identifiers are all still known. */
  ghost function Remembered(groups: set<Group>, owner: map<Ident, int>): set<Group> {
    set g | g in groups && g <= owner.Keys
  }

  /** Forgetting entities forgets whole groups only: what is left is exactly as linked as before. */
  lemma ForgettingIsFaithful(groups: set<Group>, owner: map<Ident, int>, live: set<int>)
    requires Faithful(groups, owner)
    ensures Faithful(Remembered(groups, Surviving(owner, live)), Surviving(owner, live))
  {
    var next := Surviving(owner, live);
    var fewer := Remembered(groups, next);
    assert Together(fewer, next);
    forall a, b | a in next && b in next && next[a] == next[b] ensures Dragged(fewer, a, b) {
      assert Dragged(groups, a, b);
      forall s: set<Ident> | Closed(fewer, s) && a in s ensures b in s {
        var wide := s + (owner.Keys - next.Keys);
        forall g, x, y | g in groups && x in g && y in g && x in wide ensures y in wide {
          assert owner[x] == owner[y];
          if x in next {
            assert g <= next.Keys by {
              forall z | z in g ensures z in next { assert owner[z] == owner[x]; }
            }
            assert g in fewer;
          }
        }
        assert Closed(groups, wide);
      }
    }
  }
}
