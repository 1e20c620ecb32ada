/** Finite strict total orders, and the order in which participants are listed. */
module Ordering {
  import opened Data

  ghost predicate StrictTotal<T(!new)>(s: set<T>, less: (T, T) -> bool) {
    && (forall x, y :: x in s && y in s && x != y ==> less(x, y) || less(y, x))
    && (forall x, y, z :: x in s && y in s && z in s && less(x, y) && less(y, z) ==> less(x, z))
  }

  lemma {:induction false} LeastExists<T(!new)>(s: set<T>, less: (T, T) -> bool)
    requires s != {} && StrictTotal(s, less)
    ensures exists m :: m in s && forall x :: x in s && x != m ==> less(m, x)
    decreases |s|
  {
    var a :| a in s;
    var rest := s - {a};
    if rest == {} {
      assert s == {a};
    } else {
      LeastExists(rest, less);
      var m :| m in rest && forall x :: x in rest && x != m ==> less(m, x);
      var least := if less(a, m) then a else m;
      assert least in s && forall x :: x in s && x != least ==> less(least, x);
    }
  }

  /** Code-point order on names. */
  predicate NameLess(a: string, b: string) {
    b != [] && (a == [] || a[0] < b[0] || (a[0] == b[0] && NameLess(a[1..], b[1..])))
  }

  lemma {:induction false} NameTotal(a: string, b: string)
    ensures a != b ==> NameLess(a, b) || NameLess(b, a)
    ensures !(NameLess(a, b) && NameLess(b, a))
  {
    if a != [] && b != [] && a[0] == b[0] {
      NameTotal(a[1..], b[1..]);
      assert a == [a[0]] + a[1..] && b == [b[0]] + b[1..];
    }
  }

  lemma {:induction false} NameTransitive(a: string, b: string, c: string)
    requires NameLess(a, b) && NameLess(b, c)
    ensures NameLess(a, c)
  {
    if a != [] && a[0] == b[0] && b[0] == c[0] {
      NameTransitive(a[1..], b[1..], c[1..]);
    }
  }

  /** `order_by(User.display_name.asc(), User.id.asc())` */
  predicate ListedBefore(users: map<UserId, User>, u: UserId, v: UserId)
    requires u in users && v in users
  {
    var a, b := users[u].displayName, users[v].displayName;
    NameLess(a, b) || (a == b && u < v)
  }

  lemma ListedTransitively(users: map<UserId, User>, u: UserId, v: UserId, w: UserId)
    requires u in users && v in users && w in users && ListedBefore(users, u, v) && ListedBefore(users, v, w)
    ensures ListedBefore(users, u, w)
  {
    var a, b, c := users[u].displayName, users[v].displayName, users[w].displayName;
    if NameLess(a, b) && NameLess(b, c) {
      NameTransitive(a, b, c);
    }
  }

  lemma ListedOneWay(users: map<UserId, User>, u: UserId, v: UserId)
    requires u in users && v in users && u != v
    ensures ListedBefore(users, u, v) != ListedBefore(users, v, u)
  {
    NameTotal(users[u].displayName, users[v].displayName);
  }

  lemma ListingIsTotal(users: map<UserId, User>, s: set<UserId>)
    requires s <= users.Keys
    ensures StrictTotal(s, (u, v) => u in users && v in users && ListedBefore(users, u, v))
  {
    forall x, y | x in s && y in s && x != y
      ensures ListedBefore(users, x, y) || ListedBefore(users, y, x)
    {
      ListedOneWay(users, x, y);
    }
    forall x, y, z | x in s && y in s && z in s && ListedBefore(users, x, y) && ListedBefore(users, y, z)
      ensures ListedBefore(users, x, z)
    {
      ListedTransitively(users, x, y, z);
    }
  }

  ghost predicate FirstListed(users: map<UserId, User>, s: set<UserId>, m: UserId)
    requires s <= users.Keys
  {
    m in s && forall x :: x in s && x != m ==> ListedBefore(users, m, x)
  }

  lemma FirstListedExists(users: map<UserId, User>, s: set<UserId>)
    requires s <= users.Keys && s != {}
    ensures exists m :: FirstListed(users, s, m)
  {
    ListingIsTotal(users, s);
    var less := (u, v) => u in users && v in users && ListedBefore(users, u, v);
    LeastExists(s, less);
    var m :| m in s && forall x :: x in s && x != m ==> less(m, x);
    assert FirstListed(users, s, m);
  }

  ghost predicate Listed(users: map<UserId, User>, roster: seq<UserId>) {
    && Elems(roster) <= users.Keys
    && forall i, j :: 0 <= i < j < |roster| ==> ListedBefore(users, roster[i], roster[j])
  }

  /** The members of `s` in listing order. */
  ghost function Roster(users: map<UserId, User>, s: set<UserId>): (roster: seq<UserId>)
    requires s <= users.Keys
    decreases |s|
  {
    if s == {} then
      []
    else
      FirstListedExists(users, s);
      var m :| FirstListed(users, s, m);
      [m] + Roster(users, s - {m})
  }

  lemma {:induction false} RosterElems(users: map<UserId, User>, s: set<UserId>)
    requires s <= users.Keys
    ensures Elems(Roster(users, s)) == s
    decreases |s|
  {
    var roster := Roster(users, s);
    if s != {} {
      RosterElems(users, s - {roster[0]});
      assert Elems(roster) == {roster[0]} + Elems(roster[1..]);
    }
  }

  lemma {:induction false} RosterListed(users: map<UserId, User>, s: set<UserId>)
    requires s <= users.Keys
    ensures Elems(Roster(users, s)) == s
    ensures Listed(users, Roster(users, s))
    decreases |s|
  {
    RosterElems(users, s);
    var roster := Roster(users, s);
    if s != {} {
      var m := roster[0];
      var rest := Roster(users, s - {m});
      RosterListed(users, s - {m});
      assert roster == [m] + rest;
      forall i, j | 0 <= i < j < |roster|
        ensures ListedBefore(users, roster[i], roster[j])
      {
        assert roster[j] == rest[j - 1] && rest[j - 1] in Elems(rest);
        if i > 0 {
          assert roster[i] == rest[i - 1];
        }
      }
    }
  }

  lemma ListedIsDistinct(users: map<UserId, User>, roster: seq<UserId>)
    requires Listed(users, roster)
    ensures Distinct(roster)
  {
    forall i, j | 0 <= i < j < |roster| ensures roster[i] != roster[j] {
      NameTotal(users[roster[i]].displayName, users[roster[i]].displayName);
    }
  }

  /** Listing order leaves no choice: a listed sequence is the roster of its members. */
  lemma {:induction false} RosterIsUnique(users: map<UserId, User>, roster: seq<UserId>)
    requires Listed(users, roster)
    ensures roster == Roster(users, Elems(roster))
  {
    var s := Elems(roster);
    if roster == [] {
      assert s == {};
    } else {
      var m := roster[0];
      ListedIsDistinct(users, roster);
      assert Elems(roster[1..]) == s - {m};
      assert roster == [m] + roster[1..];
      RosterIsUnique(users, roster[1..]);
      var first := Roster(users, s)[0];
      if first != m {
        assert FirstListed(users, s, first) && m in s;
        ListedOneWay(users, first, m);
      }
    }
  }

  lemma RosterStartsWith(users: map<UserId, User>, s: set<UserId>, m: UserId)
    requires s <= users.Keys && FirstListed(users, s, m)
    ensures Roster(users, s) == [m] + Roster(users, s - {m})
  {
    var first := Roster(users, s)[0];
    if first != m {
      assert FirstListed(users, s, first);
      ListedOneWay(users, first, m);
    }
  }
}
