/** Facts about finite sets that several tables need. */
module Collections {

  lemma SomeElement<T>(s: set<T>) returns (e: T)
    requires s != {}
    ensures e in s
  {
    e :| e in s;
  }

  lemma MaxExists(s: set<int>) returns (m: int)
    requires s != {}
    ensures m in s && forall x :: x in s ==> x <= m
    decreases |s|
  {
    m := SomeElement(s);
    var rest := s - {m};
    assert s == rest + {m};
    if rest != {} {
      var top := MaxExists(rest);
      m := if m > top then m else top;
    }
  }

  function MaxOf(s: set<int>): (m: int)
    requires s != {}
    ensures m in s && forall x :: x in s ==> x <= m
  {
    assert exists m :: m in s && forall x :: x in s ==> x <= m by { var m := MaxExists(s); }
    var m :| m in s && forall x :: x in s ==> x <= m;
    m
  }

  function MinOf(s: set<int>): (m: int)
    requires s != {}
    ensures m in s && forall x :: x in s ==> m <= x
  {
    var negated := set x | x in s :: -x;
    assert forall x :: x in s ==> -x in negated;
    assert negated != {} by { var e := SomeElement(s); assert -e in negated; }
    -MaxOf(negated)
  }

  /** The id SQLite gives to a new row of an INTEGER PRIMARY KEY table. */
  function NextId<R>(rows: map<int, R>): (id: int)
    ensures id !in rows
  {
    if rows.Keys == {} then 1 else MaxOf(rows.Keys) + 1
  }

  lemma InsertOne<R>(rows: map<int, R>, id: int, row: R)
    requires id !in rows
    ensures |rows[id := row]| == |rows| + 1
  {
    assert rows[id := row].Keys == rows.Keys + {id};
  }

  lemma UpdateOne<R>(rows: map<int, R>, id: int, row: R)
    requires id in rows
    ensures |rows[id := row]| == |rows|
  {
    assert rows[id := row].Keys == rows.Keys;
  }

  lemma RemoveAll<R>(rows: map<int, R>, gone: set<int>)
    requires gone <= rows.Keys
    ensures |rows - gone| + |gone| == |rows|
  {
    assert (rows - gone).Keys == rows.Keys - gone;
  }
}
