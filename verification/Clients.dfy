/**
 What the engines share with the HTTP side: response channels, disconnects,
 cancellation, shutdown. Everything on the client side may change between any two
 reads; flags only ever go up, and only the engine puts items into a channel.
 */
module Clients {
  import opened Basics
  import opened Sequences

  datatype ErrorKind = Rejected | AdmitFailed | PrefillFailed | DecodeFailed | PastCapacity | ShuttingDown

  datatype StreamItem = TokenItem(token: Token) | FinishedItem(reason: FinishReason) | ErrorItem(kind: ErrorKind)

  function TokenItems(tokens: seq<Token>): (r: seq<StreamItem>)
    ensures |r| == |tokens| && forall i :: 0 <= i < |tokens| ==> r[i] == TokenItem(tokens[i])
  {
    seq(|tokens|, i requires 0 <= i < |tokens| => TokenItem(tokens[i]))
  }

  function Messages(tokens: seq<Token>, reason: Option<FinishReason>): seq<StreamItem> {
    TokenItems(tokens) + if reason.Some? then [FinishedItem(reason.value)] else []
  }

  /** Everything put into one channel so far. */
  function HistoryOf(sent: map<Id, seq<StreamItem>>, id: Id): seq<StreamItem> { if id in sent then sent[id] else [] }

  function Say(sent: map<Id, seq<StreamItem>>, id: Id, items: seq<StreamItem>): map<Id, seq<StreamItem>> {
    if items == [] then sent else sent[id := HistoryOf(sent, id) + items]
  }

  /**
   A client was told of an error, and of nothing after it, or could not be told: its receiver is
   closed, or its channel may have no place left for one more item.
   */
  predicate Told(h: seq<StreamItem>, kind: ErrorKind, closed: bool, capacity: nat) {
    (h != [] && h[|h| - 1] == ErrorItem(kind)) || closed || |h| + 1 > capacity
  }

  /** How large a channel the HTTP handlers make for a request of so many tokens. */
  const RESPONSE_CHANNEL_CAPACITY: nat := 32

  function ChannelCapacity(maxTokens: nat): Option<nat> {
    var output := CheckedAdd(maxTokens, 1);
    if output.None? then None else Some(Min(Max(output.value, 2), RESPONSE_CHANNEL_CAPACITY))
  }

  /** What only the clients and the server's owner decide. */
  datatype Flags = Flags(closed: set<Id>, done: set<Id>, shutdown: bool)

  /** Flags are raised, never lowered. */
  predicate Grown(f: Flags, f': Flags) { f.closed <= f'.closed && f.done <= f'.done && (f.shutdown ==> f'.shutdown) }

  class Clients {
    /** Disconnected receivers, and cancelled `response_done` tokens. */
    var closed: set<Id>
    var done: set<Id>
    var shutdown: bool
    /** Everything ever put into each channel, and how much of it was taken out. */
    var sent: map<Id, seq<StreamItem>>
    var taken: map<Id, nat>

    constructor ()
      ensures closed == {} && done == {} && !shutdown && sent == map[] && taken == map[]
    {
      closed, done, shutdown, sent, taken := {}, {}, false, map[], map[];
    }

    ghost function FlagsNow(): Flags
      reads this`closed, this`done, this`shutdown
    {
      Flags(closed, done, shutdown)
    }

    function Drained(id: Id): nat
      reads this`taken
    {
      if id in taken then taken[id] else 0
    }

    /** Clients act: drain, disconnect, cancel; the server may begin to shut down. */
    method Interfere()
      modifies this`closed, this`done, this`shutdown, this`taken
      ensures Grown(old(FlagsNow()), FlagsNow())
      ensures forall id :: old(Drained(id)) <= Drained(id)
    {
      var drains: int := *;
      for i := 0 to if drains < 0 then 0 else drains
        invariant closed == old(closed) && done == old(done) && shutdown == old(shutdown)
        invariant forall id :: old(Drained(id)) <= Drained(id)
      {
        var id: Id := *;
        var items: int := *;
        if 0 <= items {
          taken := taken[id := Max(Drained(id), Min(Drained(id) + items, |HistoryOf(sent, id)|))];
        }
      }
      var newlyClosed: set<Id> := *;
      var newlyDone: set<Id> := *;
      var stop: bool := *;
      closed, done, shutdown := closed + newlyClosed, done + newlyDone, shutdown || stop;
    }

    method SenderIsClosed(id: Id) returns (b: bool)
      modifies this`closed, this`done, this`shutdown, this`taken
      ensures Grown(old(FlagsNow()), FlagsNow()) && (b <==> id in closed)
    {
      Interfere();
      b := id in closed;
    }

    method ResponseIsDone(id: Id) returns (b: bool)
      modifies this`closed, this`done, this`shutdown, this`taken
      ensures Grown(old(FlagsNow()), FlagsNow()) && (b <==> id in done)
    {
      Interfere();
      b := id in done;
    }

    method ShutdownIsCancelled() returns (b: bool)
      modifies this`closed, this`done, this`shutdown, this`taken
      ensures Grown(old(FlagsNow()), FlagsNow()) && (b <==> shutdown)
    {
      Interfere();
      b := shutdown;
    }

    function Used(id: Id): nat
      reads this`sent, this`taken
    {
      SaturatingSub(|HistoryOf(sent, id)|, Drained(id))
    }

    /** Reserve room for all messages at once, or deliver none of them. */
    method TrySendTokens(id: Id, capacity: nat, tokens: seq<Token>, reason: Option<FinishReason>) returns (ok: bool)
      modifies this
      ensures sent == Say(old(sent), id, if ok then Messages(tokens, reason) else [])
      ensures Grown(old(FlagsNow()), FlagsNow())
      ensures Messages(tokens, reason) == [] ==> ok
      ensures Messages(tokens, reason) != [] ==>
                (ok <==> id !in closed && |old(HistoryOf(sent, id))| + |Messages(tokens, reason)|
                                          <= capacity + Min(Drained(id), |old(HistoryOf(sent, id))|))
      ensures !ok ==> id in closed || |HistoryOf(sent, id)| + |Messages(tokens, reason)| > capacity
    {
      Interfere();
      var messages := Messages(tokens, reason);
      if messages == [] {
        return true;
      }
      if id in closed || Used(id) + |messages| > capacity {
        return false;
      }
      sent := sent[id := HistoryOf(sent, id) + messages];
      return true;
    }

    method TrySendError(id: Id, capacity: nat, kind: ErrorKind) returns (ok: bool)
      modifies this
      ensures sent == Say(old(sent), id, if ok then [ErrorItem(kind)] else [])
      ensures ok <==> id !in closed && |old(HistoryOf(sent, id))| + 1
                                       <= capacity + Min(Drained(id), |old(HistoryOf(sent, id))|)
      ensures !ok ==> id in closed || |HistoryOf(sent, id)| + 1 > capacity
      ensures Grown(old(FlagsNow()), FlagsNow())
    {
      Interfere();
      if id in closed || Used(id) + 1 > capacity {
        return false;
      }
      sent := sent[id := HistoryOf(sent, id) + [ErrorItem(kind)]];
      return true;
    }
  }
}
