/**
 Recorders that share a board.  The board has no lock, so a recorder's look for its key and its post are two
 turns, and other recorders' turns come between them.
 */
module RecordingRace {
  import opened Text
  import opened Note
  import opened NoteRoundTrip
  import opened Recording

  /** The board, and the calls that have looked, found nothing and not posted yet. */
  datatype Stage = Stage(tickets: Tickets, posting: multiset<Event>)

  datatype Turn = Look(event: Event) | Put(event: Event)

  /** The call is accepted and, as far as it can see, its key is not recorded. */
  predicate Passes(tickets: Tickets, e: Event) {
    Refused(e.recorder, e.call).None? && !(e.world.lists && HasKey(On(tickets, e.recorder.ticket), KeyOf(e)))
  }

  predicate CanTurn(s: Stage, t: Turn) {
    match t
    case Look(e) => Refused(e.recorder, e.call).None?
    case Put(e) => e in s.posting
  }

  function Turned(s: Stage, t: Turn): Stage {
    match t
    case Look(e) => if Passes(s.tickets, e) then s.(posting := s.posting + multiset{e}) else s
    case Put(e) =>
      var ticket := e.recorder.ticket;
      Stage(if e.world.takes then s.tickets[ticket := On(s.tickets, ticket) + [CommentOf(e)]] else s.tickets,
            s.posting - multiset{e})
  }

  predicate Legal(s: Stage, turns: seq<Turn>)
    decreases |turns|
  {
    turns == [] || (CanTurn(s, turns[0]) && Legal(Turned(s, turns[0]), turns[1..]))
  }

  function AllTurns(s: Stage, turns: seq<Turn>): Stage
    decreases |turns|
  {
    if turns == [] then s else AllTurns(Turned(s, turns[0]), turns[1..])
  }

  ghost predicate Accepted(s: Stage) {
    forall e | e in s.posting :: Refused(e.recorder, e.call).None?
  }

  /** A look and a post without a turn in between are one call. */
  lemma LookThenPut(tickets: Tickets, e: Event)
    requires Refused(e.recorder, e.call).None?
    ensures var looked := Turned(Stage(tickets, multiset{}), Look(e));
            Stage(After(tickets, e.recorder, e.call, e.world), multiset{}) ==
            if e in looked.posting then Turned(looked, Put(e)) else looked
  {
    hide Refused, HasKey, Body, NoteOf;
  }

  // ---------------------------------------------------------------- counting notes

  /** How many comments carry the key. */
  function Notes(comments: seq<Comment>, key: Key): nat
    decreases |comments|
  {
    if comments == [] then 0
    else
      var most, c := comments[..|comments| - 1], comments[|comments| - 1];
      Notes(most, key) + if CommentKey(c) == Some(key) then 1 else 0
  }

  lemma NotesMore(comments: seq<Comment>, c: Comment, key: Key)
    ensures Notes(comments + [c], key) == Notes(comments, key) + if CommentKey(c) == Some(key) then 1 else 0
  {
    hide CommentKey;
    assert (comments + [c])[..|comments|] == comments;
  }

  lemma {:induction false} KeyIsCounted(comments: seq<Comment>, key: Key)
    ensures HasKey(comments, key) <==> Notes(comments, key) > 0
    decreases |comments|
  {
    hide CommentKey;
    if comments != [] {
      var most, c := comments[..|comments| - 1], comments[|comments| - 1];
      KeyIsCounted(most, key);
      assert comments == most + [c];
      assert forall d :: d in comments <==> d in most || d == c;
    }
  }

  /** One note per key, by counting. */
  lemma {:induction false} UniqueByCount(comments: seq<Comment>)
    ensures OnePerKey(comments) <==> forall key :: Notes(comments, key) <= 1
    decreases |comments|
  {
    hide CommentKey, OnePerKey, HasKey, Notes;
    if comments == [] {
      NothingCounted();
    } else {
      var most, c := comments[..|comments| - 1], comments[|comments| - 1];
      assert comments == most + [c];
      UniqueByCount(most);
      forall key
        ensures Notes(comments, key) == Notes(most, key) + if CommentKey(c) == Some(key) then 1 else 0
      {
        NotesMore(most, c, key);
      }
      if !OnePerKey(most) {
        UniqueFront(most, c);
        var key :| Notes(most, key) > 1;
        assert Notes(comments, key) > 1;
      } else if CommentKey(c).None? {
        UniqueText(most, c);
        assert forall key :: Notes(most, key) <= 1 && Notes(comments, key) == Notes(most, key);
      } else {
        var key := CommentKey(c).value;
        KeyIsCounted(most, key);
        AppendUnique(most, c);
        assert Notes(comments, key) == Notes(most, key) + 1;
        if !HasKey(most, key) {
          assert forall other :: Notes(most, other) <= 1 && Notes(comments, other) <= 1;
        }
      }
    }
  }

  lemma NothingCounted()
    ensures OnePerKey([]) && forall key :: Notes([], key) == 0
  {
  }

  lemma UniqueFront(comments: seq<Comment>, c: Comment)
    ensures OnePerKey(comments + [c]) ==> OnePerKey(comments)
  {
    hide CommentKey;
    assert forall i | 0 <= i < |comments| :: (comments + [c])[i] == comments[i];
  }

  lemma UniqueText(comments: seq<Comment>, c: Comment)
    requires OnePerKey(comments) && CommentKey(c).None?
    ensures OnePerKey(comments + [c])
  {
    hide CommentKey;
    assert forall i | 0 <= i < |comments| :: (comments + [c])[i] == comments[i];
  }

  /** The turn adds a note of the key to the ticket. */
  predicate Adds(t: Turn, ticket: string, key: Key) {
    t.Put? && t.event.world.takes && t.event.recorder.ticket == ticket && KeyOf(t.event) == key
  }

  function Added(turns: seq<Turn>, ticket: string, key: Key): nat
    decreases |turns|
  {
    if turns == [] then 0 else (if Adds(turns[0], ticket, key) then 1 else 0) + Added(turns[1..], ticket, key)
  }

  lemma TurnAdds(s: Stage, t: Turn, ticket: string, key: Key)
    requires Accepted(s) && CanTurn(s, t)
    ensures Accepted(Turned(s, t))
    ensures Notes(On(Turned(s, t).tickets, ticket), key) ==
            Notes(On(s.tickets, ticket), key) + if Adds(t, ticket, key) then 1 else 0
  {
    hide Refused, HasKey, Notes, CommentKey, Body, NoteOf, CallKey;
    if t.Put? {
      var e := t.event;
      NotesMore(On(s.tickets, e.recorder.ticket), CommentOf(e), key);
      CallWritesItsKey(e.recorder, e.call, e.world);
    }
  }

  /** Every post that the board takes adds one note, whoever posts. */
  lemma {:induction false} TurnsAdd(s: Stage, turns: seq<Turn>, ticket: string, key: Key)
    requires Accepted(s) && Legal(s, turns)
    ensures Notes(On(AllTurns(s, turns).tickets, ticket), key) ==
            Notes(On(s.tickets, ticket), key) + Added(turns, ticket, key)
    ensures Accepted(AllTurns(s, turns))
    decreases |turns|
  {
    hide Turned, CanTurn, Notes, Adds, Accepted;
    if turns != [] {
      TurnAdds(s, turns[0], ticket, key);
      TurnsAdd(Turned(s, turns[0]), turns[1..], ticket, key);
    }
  }

  // ---------------------------------------------------------------- when a key gets a second note

  /** Whatever turns are taken, a ticket keeps one note per key exactly while no key has more than one note that
      was there or was put there. */
  lemma UniqueUnlessPutTwice(s: Stage, turns: seq<Turn>, ticket: string)
    requires Accepted(s) && Legal(s, turns)
    ensures OnePerKey(On(AllTurns(s, turns).tickets, ticket)) <==>
            forall key :: Notes(On(s.tickets, ticket), key) + Added(turns, ticket, key) <= 1
  {
    hide OnePerKey, Notes, Added, AllTurns, Legal, Accepted;
    var start, end := On(s.tickets, ticket), On(AllTurns(s, turns).tickets, ticket);
    UniqueByCount(end);
    if OnePerKey(end) {
      forall key
        ensures Notes(start, key) + Added(turns, ticket, key) <= 1
      {
        TurnsAdd(s, turns, ticket, key);
      }
    } else {
      var key :| Notes(end, key) > 1;
      TurnsAdd(s, turns, ticket, key);
      assert Notes(start, key) + Added(turns, ticket, key) > 1;
    }
  }

  lemma {:induction false} AddedIsThere(turns: seq<Turn>, ticket: string, key: Key)
    ensures Added(turns, ticket, key) > 0 <==> exists t | t in turns :: Adds(t, ticket, key)
    decreases |turns|
  {
    hide Adds;
    if turns != [] {
      AddedIsThere(turns[1..], ticket, key);
      assert turns == [turns[0]] + turns[1..];
      assert forall t :: t in turns <==> t == turns[0] || t in turns[1..];
    }
  }

  /** A call that has passed its look posts a second note of its key if and only if it looked at a board that could
      not list and held the key already, or another post of the same key came between its look and its post. */
  lemma SecondNoteExactly(s: Stage, e: Event, between: seq<Turn>)
    requires Accepted(s) && Passes(s.tickets, e) && e.world.takes && Legal(Turned(s, Look(e)), between)
    requires e in AllTurns(Turned(s, Look(e)), between).posting
    ensures var ticket, key := e.recorder.ticket, KeyOf(e);
            var end := Turned(AllTurns(Turned(s, Look(e)), between), Put(e));
            Notes(On(end.tickets, ticket), key) > 1 <==>
            || (!e.world.lists && HasKey(On(s.tickets, ticket), key))
            || exists t | t in between :: Adds(t, ticket, key)
  {
    hide HasKey, Notes, Added, AllTurns, Legal, CallKey, Refused;
    var ticket, key, looked := e.recorder.ticket, KeyOf(e), Turned(s, Look(e));
    TurnAdds(s, Look(e), ticket, key);
    TurnsAdd(looked, between, ticket, key);
    TurnAdds(AllTurns(looked, between), Put(e), ticket, key);
    KeyIsCounted(On(s.tickets, ticket), key);
    AddedIsThere(between, ticket, key);
  }

  /** Two recorders that both look before either posts leave two notes of one key on a board that can list. */
  lemma RaceRepeats()
    ensures exists e: Event, f: Event ::
              var turns := [Look(e), Look(f), Put(e), Put(f)];
              e.world.lists && f.world.lists && Legal(Stage(map[], multiset{}), turns) &&
              !BoardUnique(AllTurns(Stage(map[], multiset{}), turns).tickets)
  {
    hide HasKey, OnePerKey, CommentKey, Body, NoteOf, CallKey, Refused, Notes;
    var r, c := Recorder(true, "T", "j", "r"), Skip("price", "");
    var e := Event(r, c, World(true, true, 0, NoLedger, NoAuditor));
    var f := Event(r, c, World(true, true, 1, NoLedger, NoAuditor));
    PlainRecorder(r, c);
    assert !HasKey(On(map[], "T"), KeyOf(e)) by { NothingOn(KeyOf(e)); }
    var s0 := Stage(map[], multiset{});
    var s1 := Stage(map[], multiset{e});
    var s2 := Stage(map[], multiset{e, f});
    assert Turned(s0, Look(e)) == s1 && Turned(s1, Look(f)) == s2;
    var s3 := Turned(s2, Put(e));
    var turns := [Look(e), Look(f), Put(e), Put(f)];
    FourTurns(s0, s1, s2, s3, turns);
    assert Adds(Put(e), "T", KeyOf(e)) && Adds(Put(f), "T", KeyOf(e));
    TwoAdded(turns, "T", KeyOf(e));
    UniqueUnlessPutTwice(s0, turns, "T");
  }

  lemma NothingOn(key: Key)
    ensures !HasKey([], key)
  {
  }

  lemma FourTurns(s0: Stage, s1: Stage, s2: Stage, s3: Stage, turns: seq<Turn>)
    requires |turns| == 4 && CanTurn(s0, turns[0]) && s1 == Turned(s0, turns[0])
    requires CanTurn(s1, turns[1]) && s2 == Turned(s1, turns[1])
    requires CanTurn(s2, turns[2]) && s3 == Turned(s2, turns[2]) && CanTurn(s3, turns[3])
    ensures Legal(s0, turns)
  {
    hide Turned, CanTurn;
    assert Legal(s3, turns[1..][1..][1..]);
    assert Legal(s2, turns[1..][1..]);
    assert Legal(s1, turns[1..]);
  }

  lemma TwoAdded(turns: seq<Turn>, ticket: string, key: Key)
    requires |turns| == 4 && Adds(turns[2], ticket, key) && Adds(turns[3], ticket, key)
    ensures Added(turns, ticket, key) >= 2
  {
    hide Adds;
    var last := turns[1..][1..];
    assert last[0] == turns[2] && last[1..][0] == turns[3];
    assert Added(last[1..], ticket, key) >= 1;
    assert Added(last, ticket, key) >= 2;
    assert Added(turns[1..], ticket, key) >= 2;
  }
}
