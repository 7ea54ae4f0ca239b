/** Exactly one result: where every stream ever opened is, and whom its end is told to. */
module Results {
  import opened Bytes
  import opened ConnState
  import opened Protocol

  predicate HasEnded(ended: seq<Ended>, id: nat) {
    exists i :: 0 <= i < |ended| && ended[i].id == id
  }

  /** Every stream opened is in the map or has ended, never both; one that ended did so once. */
  ghost predicate PlaceOk(streams: map<nat, Stream>, book: map<nat, Entry>, ended: seq<Ended>) {
    && (forall i, j :: 0 <= i < j < |ended| ==> ended[i].id != ended[j].id)
    && (forall i :: 0 <= i < |ended| ==> ended[i].id in book && ended[i].id !in streams
                                          && ended[i].owner == book[ended[i].id].owner)
    && (forall id :: id in streams ==>
          id in book && streams[id].owner == book[id].owner && streams[id].keep == book[id].keep)
    && (forall id :: id in book ==> id in streams || HasEnded(ended, id))
  }

  /** The stream a Do is on, or was. */
  function StreamOf(x: Caller): Option<nat> {
    match x
    case Numbered(id, _, _) => Some(id)
    case Sending(id, _, _, _) => Some(id)
    case Taken(id, _, _, _) => Some(id)
    case AwaitDone(id) => Some(id)
    case Returned(id, _) => id
    case _ => None
  }

  /** A Do's stream and its caller belong to each other alone. */
  ghost predicate OwnersOk(book: map<nat, Entry>, callers: seq<Caller>) {
    && (forall id :: id in book && book[id].owner.ByDo? ==>
          book[id].owner.caller < |callers| && StreamOf(callers[book[id].owner.caller]) == Some(id))
    && (forall c :: 0 <= c < |callers| && StreamOf(callers[c]).Some? ==>
          StreamOf(callers[c]).value in book && book[StreamOf(callers[c]).value].owner == ByDo(c))
  }

  predicate Told(ended: seq<Ended>, told: nat, id: nat, r: Response) {
    exists i :: 0 <= i < told && i < |ended| && ended[i].id == id && ended[i].result == r
  }

  /** A Do that returned was told how its stream ended, or was refused before it had one. */
  ghost predicate ReturnsOk(callers: seq<Caller>, ended: seq<Ended>, told: nat) {
    && told <= |ended|
    && forall c :: 0 <= c < |callers| && callers[c].Returned? ==>
         match callers[c].stream
         case Some(id) => Told(ended, told, id, callers[c].result)
         case None => callers[c].result.err.Some?
  }

  // ----- places -----

  lemma PlaceSame(streams: map<nat, Stream>, book: map<nat, Entry>, ended: seq<Ended>, streams': map<nat, Stream>,
                  book': map<nat, Entry>)
    requires PlaceOk(streams, book, ended) && streams'.Keys == streams.Keys && book'.Keys == book.Keys
    requires forall id :: id in streams ==>
               streams'[id].owner == streams[id].owner && streams'[id].keep == streams[id].keep
    requires forall id :: id in book ==> book'[id].owner == book[id].owner && book'[id].keep == book[id].keep
    ensures PlaceOk(streams', book', ended)
  {
    forall i | 0 <= i < |ended|
      ensures ended[i].id in book' && ended[i].id !in streams' && ended[i].owner == book'[ended[i].id].owner
    {
      assert ended[i].id in book.Keys && ended[i].id !in streams.Keys;
    }
    forall id | id in streams'
      ensures id in book' && streams'[id].owner == book'[id].owner && streams'[id].keep == book'[id].keep
    {
      assert id in streams.Keys;
      assert id in book.Keys;
    }
    forall id | id in book' ensures id in streams' || HasEnded(ended, id) {
      assert id in book.Keys;
      assert id in streams ==> id in streams'.Keys;
    }
  }

  /** Streams gone from the map are exactly those now at the end of the list. */
  lemma PlaceEnds(streams: map<nat, Stream>, book: map<nat, Entry>, ended: seq<Ended>, order: seq<nat>, gone: set<nat>,
                  es: seq<Ended>)
    requires PlaceOk(streams, book, ended) && gone <= streams.Keys && Enumerates(order, gone)
    requires |es| == |order|
    requires forall i :: 0 <= i < |es| ==>
               es[i].id == order[i] && order[i] in streams && es[i].owner == streams[order[i]].owner
    ensures PlaceOk(streams - gone, book, ended + es)
  {
    var all := ended + es;
    forall i, j | 0 <= i < j < |all| ensures all[i].id != all[j].id {
      if j >= |ended| {
        assert all[j] == es[j - |ended|];
        if i >= |ended| {
          assert all[i] == es[i - |ended|];
        }
      }
    }
    forall i | 0 <= i < |all|
      ensures all[i].id in book && all[i].id !in streams - gone && all[i].owner == book[all[i].id].owner
    {
      if i >= |ended| {
        assert all[i] == es[i - |ended|];
        assert order[i - |ended|] in gone;
      }
    }
    PlaceCovered(streams, book, ended, order, gone, es);
  }

  lemma PlaceCovered(streams: map<nat, Stream>, book: map<nat, Entry>, ended: seq<Ended>, order: seq<nat>,
                     gone: set<nat>, es: seq<Ended>)
    requires forall id :: id in book ==> id in streams || HasEnded(ended, id)
    requires Enumerates(order, gone) && |es| == |order| && forall i :: 0 <= i < |es| ==> es[i].id == order[i]
    ensures forall id :: id in book ==> id in streams - gone || HasEnded(ended + es, id)
  {
    forall id | id in book && id !in streams - gone ensures HasEnded(ended + es, id) {
      if id in streams {
        assert id in order;
        var k :| 0 <= k < |order| && order[k] == id;
        assert (ended + es)[|ended| + k].id == id;
      } else {
        var k :| 0 <= k < |ended| && ended[k].id == id;
        assert (ended + es)[k].id == id;
      }
    }
  }

  lemma PlaceRemove(s: System, id: nat, cause: Cause)
    requires PlaceOk(s.conn.streams, s.book, s.ended)
    ensures var t := Ends(s, id, cause); PlaceOk(t.conn.streams, t.book, t.ended)
  {
    if id in s.conn.streams {
      var st := s.conn.streams[id];
      PlaceEnds(s.conn.streams, s.book, s.ended, [id], {id},
                [Ended(id, st.owner, Conclude(st.resp, cause), cause, |s.trace|)]);
    }
  }

  lemma PlaceOpen(streams: map<nat, Stream>, book: map<nat, Entry>, ended: seq<Ended>, streams': map<nat, Stream>,
                  book': map<nat, Entry>)
    requires PlaceOk(streams, book, ended)
    requires forall id :: id in book ==> id in book' && book'[id] == book[id]
    requires forall id :: id in streams ==> id in streams' && streams'[id] == streams[id]
    requires forall id :: id in streams' && id !in streams ==>
               && id in book' && id !in book
               && streams'[id].owner == book'[id].owner && streams'[id].keep == book'[id].keep
    requires forall id :: id in book' && id !in book ==> id in streams'
    ensures PlaceOk(streams', book', ended)
  {
  }

  // ----- owners -----

  lemma OwnersMove(book: map<nat, Entry>, callers: seq<Caller>, book': map<nat, Entry>, c: nat, x: Caller)
    requires OwnersOk(book, callers) && c < |callers| && StreamOf(x) == StreamOf(callers[c])
    requires book'.Keys == book.Keys && forall id :: id in book ==> book'[id].owner == book[id].owner
    ensures OwnersOk(book', callers[c := x])
  {
    assert forall id :: id in book' ==> id in book.Keys;
  }

  lemma OwnersJoin(book: map<nat, Entry>, callers: seq<Caller>, x: Caller)
    requires OwnersOk(book, callers) && StreamOf(x).None?
    ensures OwnersOk(book, callers + [x])
  {
    var cs := callers + [x];
    forall c | 0 <= c < |cs| && StreamOf(cs[c]).Some?
      ensures StreamOf(cs[c]).value in book && book[StreamOf(cs[c]).value].owner == ByDo(c)
    {
      assert cs[c] == callers[c];
    }
  }

  lemma OwnersNumber(book: map<nat, Entry>, callers: seq<Caller>, c: nat, x: Caller, id: nat, e: Entry)
    requires OwnersOk(book, callers) && c < |callers| && StreamOf(callers[c]).None?
    requires id !in book && StreamOf(x) == Some(id) && e.owner == ByDo(c)
    ensures OwnersOk(book[id := e], callers[c := x])
  {
  }

  lemma OwnersBatch(book: map<nat, Entry>, callers: seq<Caller>, book': map<nat, Entry>, c: nat, x: Caller)
    requires OwnersOk(book, callers) && c < |callers| && StreamOf(callers[c]).None? && StreamOf(x).None?
    requires forall id :: id in book ==> id in book' && book'[id] == book[id]
    requires forall id :: id in book' && id !in book ==> book'[id].owner == ByBatch
    ensures OwnersOk(book', callers[c := x])
  {
  }

  // ----- returns -----

  lemma ReturnsMove(callers: seq<Caller>, ended: seq<Ended>, told: nat, c: nat, x: Caller)
    requires ReturnsOk(callers, ended, told) && c < |callers| && (x.Returned? ==> x.stream.None? && x.result.err.Some?)
    ensures ReturnsOk(callers[c := x], ended, told)
  {
  }

  lemma ReturnsJoin(callers: seq<Caller>, ended: seq<Ended>, told: nat, x: Caller)
    requires ReturnsOk(callers, ended, told) && !x.Returned?
    ensures ReturnsOk(callers + [x], ended, told)
  {
    var cs := callers + [x];
    forall c | 0 <= c < |cs| && cs[c].Returned?
      ensures match cs[c].stream
              case Some(id) => Told(ended, told, id, cs[c].result)
              case None => cs[c].result.err.Some?
    {
      assert cs[c] == callers[c];
    }
  }

  lemma ReturnsReceive(callers: seq<Caller>, ended: seq<Ended>, told: nat, c: nat, i: nat, id: nat)
    requires ReturnsOk(callers, ended, told) && c < |callers| && i < told && i < |ended| && ended[i].id == id
    ensures ReturnsOk(callers[c := Returned(Some(id), ended[i].result)], ended, told)
  {
    assert Told(ended, told, id, ended[i].result);
  }

  /** What has been told stays told. */
  lemma ReturnsGrow(callers: seq<Caller>, ended: seq<Ended>, told: nat, ended': seq<Ended>, told': nat)
    requires ReturnsOk(callers, ended, told) && ended <= ended' && told <= told' <= |ended'|
    ensures ReturnsOk(callers, ended', told')
  {
    forall c | 0 <= c < |callers| && callers[c].Returned?
      ensures match callers[c].stream
              case Some(id) => Told(ended', told', id, callers[c].result)
              case None => callers[c].result.err.Some?
    {
      match callers[c].stream
      case None =>
      case Some(id) =>
        var i :| 0 <= i < told && i < |ended| && ended[i].id == id && ended[i].result == callers[c].result;
        assert ended'[i] == ended[i];
    }
  }

  // ----- the reader -----

  ghost predicate ReaderOk(conn: Conn, reader: Reader) {
    && (reader.phase.Exited? ==> conn.streams == map[] && conn.err.Some?)
    && (reader.phase.InBlock? && reader.hdrStream.Some? ==> reader.hdrStream.value in conn.streams)
    && (reader.phase.InBlock? ==> reader.hdrStatus == LastStatus(0, reader.fields))
  }
}
