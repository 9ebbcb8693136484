/** The `notes` table as the notes page sees it: a sequence of rows, the
    owner-scoped query the page issues, and the owner-scoped insert and
    delete. The table itself is the data provider's; this is the meaning
    of the three requests, not their transport. */
module NoteStore {

  /** A row of `notes`; `created_at` is a timestamp, here a number. */
  datatype Note = Note(id: string, title: string, content: string, userId: string, createdAt: int)

  /** What the page inserts; the server assigns `id` and `created_at`. */
  datatype NewNote = NewNote(title: string, content: string, userId: string)

  /** `s.filter(keep)`: the elements that `keep` accepts, in their order. */
  function Filter(s: seq<Note>, keep: Note -> bool): (r: seq<Note>)
    ensures |r| <= |s|
    ensures forall n :: n in r <==> n in s && keep(n)
  {
    if s == [] then [] else (if keep(s[0]) then [s[0]] else []) + Filter(s[1..], keep)
  }

  /** Filtering works piecewise, so it keeps the order of what it keeps. */
  lemma {:induction false} FilterConcat(a: seq<Note>, b: seq<Note>, keep: Note -> bool)
    ensures Filter(a + b, keep) == Filter(a, keep) + Filter(b, keep)
  {
    if a == [] {
      assert a + b == b;
    } else {
      assert (a + b)[1..] == a[1..] + b;
      FilterConcat(a[1..], b, keep);
    }
  }

  /** A second, narrower filter sees nothing of the first. */
  lemma {:induction false} FilterFilter(s: seq<Note>, wide: Note -> bool, narrow: Note -> bool)
    requires forall n :: narrow(n) ==> wide(n)
    ensures Filter(Filter(s, wide), narrow) == Filter(s, narrow)
  {
    if s != [] {
      var head := if wide(s[0]) then [s[0]] else [];
      FilterConcat(head, Filter(s[1..], wide), narrow);
      FilterFilter(s[1..], wide, narrow);
      if wide(s[0]) {
        assert Filter(head, narrow) == (if narrow(s[0]) then [s[0]] else []) + Filter([], narrow);
      }
    }
  }

  /** Most recent first: `order('created_at', { ascending: false })`. */
  predicate NewestFirst(s: seq<Note>) {
    forall i, j :: 0 <= i < j < |s| ==> s[i].createdAt >= s[j].createdAt
  }

  lemma {:induction false} FilterNewestFirst(s: seq<Note>, keep: Note -> bool)
    requires NewestFirst(s)
    ensures NewestFirst(Filter(s, keep))
  {
    if s != [] {
      assert NewestFirst(s[1..]) by {
        forall i, j | 0 <= i < j < |s[1..]| ensures s[1..][i].createdAt >= s[1..][j].createdAt {
          assert s[1..][i] == s[i + 1] && s[1..][j] == s[j + 1];
        }
      }
      FilterNewestFirst(s[1..], keep);
      var rest := Filter(s[1..], keep);
      if keep(s[0]) {
        forall j | 0 < j < |[s[0]] + rest| ensures s[0].createdAt >= ([s[0]] + rest)[j].createdAt {
          assert ([s[0]] + rest)[j] == rest[j - 1];
          assert rest[j - 1] in s[1..];
        }
      }
    }
  }

  /** Places `n` before the first row that is not newer than it. */
  function InsertByDate(n: Note, s: seq<Note>): (r: seq<Note>)
    ensures multiset(r) == multiset(s) + multiset{n}
  {
    if s == [] || n.createdAt >= s[0].createdAt then [n] + s
    else
      assert s == [s[0]] + s[1..];
      [s[0]] + InsertByDate(n, s[1..])
  }

  lemma {:induction false} InsertByDateNewestFirst(n: Note, s: seq<Note>)
    requires NewestFirst(s)
    ensures NewestFirst(InsertByDate(n, s))
  {
    if s != [] && n.createdAt < s[0].createdAt {
      assert NewestFirst(s[1..]) by {
        forall i, j | 0 <= i < j < |s[1..]| ensures s[1..][i].createdAt >= s[1..][j].createdAt {
          assert s[1..][i] == s[i + 1] && s[1..][j] == s[j + 1];
        }
      }
      InsertByDateNewestFirst(n, s[1..]);
      var rest := InsertByDate(n, s[1..]);
      var r := [s[0]] + rest;
      forall j | 0 < j < |r| ensures s[0].createdAt >= r[j].createdAt {
        assert r[j] == rest[j - 1];
        assert rest[j - 1] in multiset(rest);
        assert rest[j - 1] == n || rest[j - 1] in s[1..];
      }
    }
  }

  /** The ordering the database applies, as an insertion sort. */
  function SortByDate(s: seq<Note>): (r: seq<Note>)
    ensures multiset(r) == multiset(s)
    ensures NewestFirst(r)
  {
    if s == [] then []
    else
      var rest := SortByDate(s[1..]);
      InsertByDateNewestFirst(s[0], rest);
      assert s == [s[0]] + s[1..];
      InsertByDate(s[0], rest)
  }

  function OwnedBy(uid: string): Note -> bool {
    (n: Note) => n.userId == uid
  }

  /** The rows that survive `delete().eq('id', id).eq('user_id', uid)`. */
  function Survives(id: string, uid: string): Note -> bool {
    (n: Note) => !(n.id == id && n.userId == uid)
  }

  /** `select('*').eq('user_id', uid).order('created_at', { ascending: false })`:
      exactly the caller's rows, each once, most recent first. */
  function Select(rows: seq<Note>, uid: string): (r: seq<Note>)
    ensures forall n :: n in r ==> n.userId == uid
    ensures forall n :: n in rows && n.userId == uid ==> n in r
    ensures multiset(r) == multiset(Filter(rows, OwnedBy(uid)))
    ensures NewestFirst(r)
  {
    var owned := Filter(rows, OwnedBy(uid));
    var r := SortByDate(owned);
    assert forall n :: n in r <==> n in owned by {
      forall n ensures n in r <==> n in owned {
        assert n in r <==> n in multiset(r);
        assert n in owned <==> n in multiset(owned);
      }
    }
    r
  }

  /** An owner-scoped delete never changes what another user's query returns. */
  lemma DeleteSparesOthers(rows: seq<Note>, id: string, uid: string, other: string)
    requires other != uid
    ensures Select(Filter(rows, Survives(id, uid)), other) == Select(rows, other)
  {
    FilterFilter(rows, Survives(id, uid), OwnedBy(other));
  }

  /** The data provider's table. */
  class Store {
    var rows: seq<Note>

    constructor (rows: seq<Note>)
      ensures this.rows == rows
    {
      this.rows := rows;
    }

    /** `insert(row)`: the server completes the row with `id` and `createdAt`. */
    method Insert(row: NewNote, id: string, createdAt: int) returns (note: Note)
      modifies this
      ensures note == Note(id, row.title, row.content, row.userId, createdAt)
      ensures rows == old(rows) + [note]
    {
      note := Note(id, row.title, row.content, row.userId, createdAt);
      rows := rows + [note];
    }

    /** `delete().eq('id', id).eq('user_id', uid)` */
    method Delete(id: string, uid: string)
      modifies this
      ensures rows == Filter(old(rows), Survives(id, uid))
      ensures forall n :: n in old(rows) && n.userId != uid ==> n in rows
    {
      rows := Filter(rows, Survives(id, uid));
    }
  }
}
