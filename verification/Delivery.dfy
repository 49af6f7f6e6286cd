/** RESUMABLE DELIVERY. A sender with an unchanged source and a receiver with a staging file make
    attempt after attempt. Nothing coordinates them: the sender goes by any offset it hears, the
    receiver accepts again at any offset, every stream ever sent may arrive late, again, or cut
    anywhere, and staged bytes may be lost in between. */
module Delivery {
  import opened Common
  import opened Transfers
  import opened LogicalTransfers
  import opened Streaming

  /** The source is the file that was offered. */
  predicate Offers(source: seq<byte>, metadata: Metadata, hash: seq<byte> -> seq<byte>) {
    |source| == metadata.byteLen <= MAX_TRANSFER_BYTES && hash(source) == metadata.digest
  }

  predicate Complete(t: Transfer) {
    t.state.Completing? || t.Outcome() == Some(Completed)
  }

  /** What is staged is always a prefix of the source, and all of it once the payload is verified. */
  predicate Faithful(source: seq<byte>, staged: seq<byte>, receiver: Transfer) {
    staged <= source && (Complete(receiver) ==> staged == source)
  }

  lemma SentIsSuffix(source: seq<byte>, offset: nat, sent: seq<byte>, to: nat)
    requires Sent([], sent, source, offset, to)
    ensures |sent| == to - offset && offset + |sent| <= |source| && sent == source[offset..offset + |sent|]
  {
  }

  /** What arrives extends a staged prefix of the source to a longer one. */
  lemma GrewIsPrefix(source: seq<byte>, before: seq<byte>, now: seq<byte>, carried: seq<byte>, sent: seq<byte>)
    requires before <= source && Grew(before, now, carried, 0) && carried <= sent
    requires |before| + |sent| <= |source| && sent == source[|before|..|before| + |sent|]
    ensures before <= now <= source && (|now| == |source| ==> now == source)
  {
  }

  /** What one sending attempt put on its data stream: the offset its header declares, and the
      payload behind it. */
  datatype Stream = Stream(offset: nat, bytes: seq<byte>)

  predicate Carries(source: seq<byte>, stream: Stream) {
    stream.offset + |stream.bytes| <= |source|
    && stream.bytes == source[stream.offset..stream.offset + |stream.bytes|]
  }

  /** The sender can start an attempt at the offset it heard. */
  predicate MaySend(t: Transfer, heard: nat) {
    t.state in {Queued, State.Paused, Offered} && heard <= t.metadata.byteLen && t.nextAttempt < U64_MAX
  }

  /** One sending attempt, from whatever offset the sender was told, over files and a stream that are
      opened for it. The header declares the offset the sender goes by. Unless an operation fails,
      everything from there on is sent. */
  method SendOnce(sender: LogicalTransfer, source: File, sink: Pipe, heard: nat, hash: seq<byte> -> seq<byte>)
    returns (stream: Option<Stream>)
    requires sender.direction == Outgoing && source.Valid() && source.steady && Offers(source.content, sender.metadata, hash)
    requires sink.Valid() && sink.bytes == [] && !source.failed && !sink.failed
    modifies sender, source, sink
    ensures source.Valid() && sink.Valid() && source.content == old(source.content) && sink.pos == old(sink.pos)
    ensures stream.Some? <==> old(MaySend(sender.View(), heard))
    ensures stream.Some? ==> stream.value == Stream(heard, sink.bytes) && Carries(source.content, stream.value)
    ensures stream.Some? && !source.failed && !sink.failed ==>
              sender.state.WaitingForTerminal? && sink.bytes == source.content[heard..]
  {
    hide Sent, Reports, Current;
    var refused := sender.OfferSent();
    refused := sender.AcceptReceived(heard);
    if refused.Some? {
      return None;
    }
    var started := sender.StartSend();
    if started.Err? {
      return None;
    }
    var (attempt, offset) := started.value;
    var sent, reported, first, second := SendPayload(source, sink, sender.metadata, offset, hash);
    if sink.bytes != [] {
      SentIsSuffix(second, offset, sink.bytes, offset + |sink.bytes|);
      assert second == source.content[..|second|];
    }
    if sent.Ok? {
      SentIsSuffix(second, offset, sink.bytes, |second|);
      refused := sender.SendFinished(attempt);
    } else {
      var stopped := sender.Pause();
    }
    return Some(Stream(offset, sink.bytes));
  }

  /** The receiver, after accepting again if it does, has accepted exactly this offset. */
  predicate MayReceive(t: Transfer, reaccept: Option<nat>, offset: nat) {
    var u := if reaccept.Some? && t.AcceptancePersisted(reaccept.value).Ok? then t.AcceptancePersisted(reaccept.value).value else t;
    u.state == Accepted(offset) && u.nextAttempt < U64_MAX
  }

  /** One receiving attempt: the receiver may accept again, at any offset; then a stream sent at
      any time before arrives, cut anywhere. Only a stream for exactly the accepted offset starts a
      reception, and only a staging file of exactly that length is written to. Unless an operation
      fails, it succeeds exactly if the stream brings all that file still needs. */
  method ReceiveOnce(receiver: LogicalTransfer, staging: File, reaccept: Option<nat>, stream: Stream, pipe: Pipe,
                     hash: seq<byte> -> seq<byte>, ghost source: seq<byte>)
    returns (got: Option<Result<(), IoError>>)
    requires receiver.direction == Incoming && staging.Valid() && staging.steady && !staging.failed
    requires Carries(source, stream) && pipe.pos == 0 && pipe.bytes <= stream.bytes && !pipe.failed
    requires Offers(source, receiver.metadata, hash) && Faithful(source, staging.content, receiver.View())
    modifies receiver, staging, pipe
    ensures staging.Valid() && Faithful(source, staging.content, receiver.View())
    ensures old(staging.content) <= staging.content && pipe.bytes == old(pipe.bytes)
    ensures got.Some? <==> old(MayReceive(receiver.View(), reaccept, stream.offset))
    ensures got.None? || |old(staging.content)| != stream.offset ==> staging.content == old(staging.content)
    ensures got.Some? && got.value.Ok? ==> receiver.state.Completing? && staging.content == source
    ensures got.Some? && !staging.failed && !pipe.failed ==>
              (got.value.Ok? <==> |old(staging.content)| == stream.offset == |source| - |pipe.bytes|)
  {
    hide Grew, Reports, Current;
    if reaccept.Some? {
      var refused := receiver.AcceptancePersisted(reaccept.value);
    }
    var attempt := receiver.StartReceive(BlobV1(receiver.id, stream.offset, receiver.metadata.byteLen - stream.offset));
    if attempt.Err? {
      return None;
    }
    ghost var before := staging.content;
    var result, observed := ReceivePayload(pipe, staging, receiver.metadata, stream.offset, hash);
    if |before| == stream.offset {
      GrewIsPrefix(source, before, staging.content, pipe.bytes, stream.bytes);
      ArrivesWhole(source, before, stream, pipe.bytes);
    }
    if result.Ok? {
      var late := receiver.PayloadVerified(attempt.value);
    } else {
      var stopped := receiver.Pause();
    }
    return Some(result);
  }

  lemma ArrivesWhole(source: seq<byte>, before: seq<byte>, stream: Stream, arrived: seq<byte>)
    requires Carries(source, stream) && before <= source && |before| == stream.offset && arrived <= stream.bytes
    ensures |before| + |arrived| == |source| ==> before + arrived[0..] == source
  {
  }

  /** Both machines can take up the transfer, the receiver at what it has staged. */
  predicate MayResume(sender: Transfer, receiver: Transfer, staged: nat) {
    && MaySend(sender, staged) && receiver.nextAttempt < U64_MAX
    && (receiver.state.Paused? || receiver.state.Accepted? || (receiver.state.PendingOffer? && staged == 0))
  }

  /** One attempt in which the two sides agree: the receiver accepts at what it has staged, the sender
      hears of it, and what it sends arrives. Unless an operation fails, it completes the transfer. */
  method Round(sender: LogicalTransfer, receiver: LogicalTransfer, source: File, staging: File, link: Pipe,
               hash: seq<byte> -> seq<byte>)
    requires sender != receiver && source != staging && sender.direction == Outgoing && receiver.direction == Incoming
    requires source.Valid() && source.steady && staging.Valid() && staging.steady && link.pos == 0 && link.bytes == []
    requires !source.failed && !staging.failed && !link.failed && receiver.metadata == sender.metadata
    requires Offers(source.content, sender.metadata, hash) && Faithful(source.content, staging.content, receiver.View())
    modifies sender, receiver, source, staging, link
    ensures source.Valid() && staging.Valid() && source.content == old(source.content)
    ensures Faithful(source.content, staging.content, receiver.View())
    ensures old(MayResume(sender.View(), receiver.View(), |staging.content|))
            && !source.failed && !staging.failed && !link.failed ==>
              sender.state.WaitingForTerminal? && receiver.state.Completing? && staging.content == source.content
  {
    var staged := |staging.content|;
    var stream := SendOnce(sender, source, link, staged, hash);
    if stream.Some? && !link.failed {
      var got := ReceiveOnce(receiver, staging, Some(staged), stream.value, link, hash, source.content);
    }
  }

  /** Between attempts: connections drop, a verified receiver publishes its outcome, and an
      incomplete one loses staged bytes that had not reached the disk. */
  method Between(sender: LogicalTransfer, receiver: LogicalTransfer, staging: File, ghost source: seq<byte>)
    requires sender != receiver && staging.Valid() && Faithful(source, staging.content, receiver.View())
    modifies sender, receiver, staging
    ensures staging.Valid() && Faithful(source, staging.content, receiver.View())
  {
    var publishes: bool := *;
    if publishes && receiver.state.Completing? {
      var refused := receiver.TerminalPersisted(Completed, Some(receiver.state.attempt));
    }
    var drops: bool := *;
    if drops {
      var worker := sender.Pause();
      worker := receiver.Pause();
    }
    if !Complete(receiver.View()) {
      var kept: nat :| kept <= |staging.content|;
      staging.content := staging.content[..kept];
      staging.pos := 0;
    }
  }

  /** Any number of sending and receiving attempts in any order, each over files opened for it.
      `streams` is everything that was ever sent. */
  method Deliver(peer: DeviceId, other: DeviceId, id: TransferId, metadata: Metadata, source: File,
                 hash: seq<byte> -> seq<byte>, rounds: nat)
    returns (staging: File, receiver: LogicalTransfer)
    requires source.Valid() && source.steady && Offers(source.content, metadata, hash)
    modifies source
    ensures source.content == old(source.content) && staging.content <= source.content
    ensures Complete(receiver.View()) ==> staging.content == source.content && hash(staging.content) == metadata.digest
  {
    var sender := new LogicalTransfer(other, id, metadata, Outgoing);
    receiver := new LogicalTransfer(peer, id, metadata, Incoming);
    staging := new File([], true);
    var streams: seq<Stream> := [];
    var round := 0;
    while round < rounds
      invariant fresh(sender) && fresh(receiver) && fresh(staging) && sender != receiver && source != staging
      invariant sender.direction == Outgoing && receiver.direction == Incoming && receiver.metadata == sender.metadata == metadata
      invariant source.Valid() && staging.Valid() && staging.steady && source.content == old(source.content)
      invariant forall i | 0 <= i < |streams| :: Carries(source.content, streams[i])
      invariant Faithful(source.content, staging.content, receiver.View())
    {
      source.failed, staging.failed := false, false;
      var agree: bool, sends: bool, heard: nat := *, *, *;
      var link := new Pipe([]);
      if agree {
        Round(sender, receiver, source, staging, link, hash);
      } else if sends {
        var stream := SendOnce(sender, source, link, heard, hash);
        if stream.Some? {
          streams := streams + [stream.value];
        }
      } else if streams != [] {
        var i: nat :| i < |streams|;
        var cut: nat :| cut <= |streams[i].bytes|;
        var reaccept: Option<nat> := *;
        link := new Pipe(streams[i].bytes[..cut]);
        var got := ReceiveOnce(receiver, staging, reaccept, streams[i], link, hash, source.content);
      }
      Between(sender, receiver, staging, source.content);
      round := round + 1;
    }
  }
}
