/** server/tcp_baseline.cpp: newline framing over a byte stream, and id allocation. */
module Framing {
  import opened Constants
  import opened Types
  import opened Folding
  import opened World

  /** The complete lines of a stream, and what follows the last newline. */
  datatype Framed = Framed(lines: seq<string>, residue: string)

  const NOTHING := Framed([], "")

  /** The reference: one character at a time. */
  function Feed(f: Framed, c: char): Framed {
    if c == '\n' then Framed(f.lines + [f.residue], "") else f.(residue := f.residue + [c])
  }

  function Frame(s: string): Framed {
    Fold(Feed, NOTHING, s)
  }

  /** What the stream extraction operators find in a line; the text parsing itself is a parameter. */
  datatype Command = In(seqNo: u32, mx: int, my: int) | Bye | Other

  datatype Handled = Handled(players: map<u16, ServerPlayer>, inputs: nat, closing: bool)

  /** `static_cast<std::int8_t>` of an `int`. */
  function CastI8(v: int): i8 {
    var low := v % 0x100;
    if low < 0x80 then low else low - 0x100
  }

  function HandleLine(parse: string -> Command, id: u16, h: Handled, line: string): Handled {
    if line == "" then h
    else
      match parse(line)
      case In(seqNo, mx, my) =>
        h.(players := if id in h.players
                      then h.players[id := Offer(h.players[id], InputCmd(seqNo, CastI8(mx), CastI8(my)))]
                      else h.players,
           inputs := h.inputs + 1)
      case Bye => h.(closing := true)
      case Other => h
  }

  function HandleAll(parse: string -> Command, id: u16, h: Handled, lines: seq<string>): Handled {
    Fold((h: Handled, line: string) => HandleLine(parse, id, h, line), h, lines)
  }

  /** One call of `process_lines` on a buffer. */
  function Process(parse: string -> Command, id: u16, h: Handled, buffer: string): (Handled, string) {
    (HandleAll(parse, id, h, Frame(buffer).lines), Frame(buffer).residue)
  }

  /** Append a chunk, process, append the next chunk, process, ... */
  function ProcessChunks(parse: string -> Command, id: u16, h: Handled, buffer: string, chunks: seq<string>)
    : (Handled, string)
  {
    if chunks == [] then (h, buffer)
    else
      var before := ProcessChunks(parse, id, h, buffer, chunks[..|chunks| - 1]);
      Process(parse, id, before.0, before.1 + chunks[|chunks| - 1])
  }

  function Concat(chunks: seq<string>): string {
    if chunks == [] then "" else Concat(chunks[..|chunks| - 1]) + chunks[|chunks| - 1]
  }

  /** Lines already complete are only ever carried along. */
  lemma {:induction false} FeedCarriesLines(f: Framed, s: string)
    ensures Fold(Feed, f, s) == Framed(f.lines + Fold(Feed, Framed([], f.residue), s).lines,
                                       Fold(Feed, Framed([], f.residue), s).residue)
  {
    if s != "" {
      FeedCarriesLines(f, s[..|s| - 1]);
    }
  }

  lemma {:induction false} FeedPlain(f: Framed, s: string)
    requires '\n' !in s
    ensures Fold(Feed, f, s) == f.(residue := f.residue + s)
  {
    if s != "" {
      FeedPlain(f, s[..|s| - 1]);
      assert s == s[..|s| - 1] + [s[|s| - 1]];
    }
  }

  lemma {:induction false} ResidueHasNoNewline(s: string)
    ensures '\n' !in Frame(s).residue
  {
    if s != "" { ResidueHasNoNewline(s[..|s| - 1]); }
  }

  /** Cutting the first line off by its newline, as the loop does, agrees with the reference. */
  lemma FrameFirstLine(s: string, nl: nat)
    requires nl < |s| && s[nl] == '\n' && '\n' !in s[..nl]
    ensures Frame(s) == Framed([s[..nl]] + Frame(s[nl + 1..]).lines, Frame(s[nl + 1..]).residue)
  {
    var first := s[..nl] + ['\n'];
    assert s == first + s[nl + 1..] && first[..nl] == s[..nl];
    FeedPlain(NOTHING, s[..nl]);
    assert "" + s[..nl] == s[..nl] && [] + [s[..nl]] == [s[..nl]];
    assert Frame(first) == Framed([s[..nl]], "");
    FoldConcat(Feed, NOTHING, first, s[nl + 1..]);
    FeedCarriesLines(Frame(first), s[nl + 1..]);
  }

  /** What arrives after a residue completes the stream. */
  lemma FrameConcat(s: string, t: string)
    ensures Frame(s + t) == Framed(Frame(s).lines + Frame(Frame(s).residue + t).lines,
                                   Frame(Frame(s).residue + t).residue)
  {
    var f := Frame(s);
    ResidueHasNoNewline(s);
    FoldConcat(Feed, NOTHING, s, t);
    FeedCarriesLines(f, t);
    FeedPlain(NOTHING, f.residue);
    assert "" + f.residue == f.residue;
    FoldConcat(Feed, NOTHING, f.residue, t);
  }

  lemma ProcessConcat(parse: string -> Command, id: u16, h: Handled, s: string, t: string)
    ensures var first := Process(parse, id, h, s);
            Process(parse, id, first.0, first.1 + t) == Process(parse, id, h, s + t)
  {
    FrameConcat(s, t);
    FoldConcat((h: Handled, line: string) => HandleLine(parse, id, h, line), h,
               Frame(s).lines, Frame(Frame(s).residue + t).lines);
  }

  /** One turn of the loop. */
  lemma ProcessFirstLine(parse: string -> Command, id: u16, h: Handled, s: string, nl: nat)
    requires nl < |s| && s[nl] == '\n' && '\n' !in s[..nl]
    ensures Process(parse, id, h, s) == Process(parse, id, HandleLine(parse, id, h, s[..nl]), s[nl + 1..])
  {
    var handle := (h: Handled, line: string) => HandleLine(parse, id, h, line);
    FrameFirstLine(s, nl);
    FoldConcat(handle, h, [s[..nl]], Frame(s[nl + 1..]).lines);
    assert [s[..nl]][..0] == [];
    assert Fold(handle, h, [s[..nl]]) == handle(Fold(handle, h, []), s[..nl]);
  }

  lemma ProcessResidue(parse: string -> Command, id: u16, h: Handled, s: string)
    requires '\n' !in s
    ensures Process(parse, id, h, s) == (h, s)
  {
    FeedPlain(NOTHING, s);
    assert "" + s == s;
  }

  lemma NextChunk(parse: string -> Command, id: u16, h: Handled, buffer: string, chunks: seq<string>, sofar: string)
    requires chunks != []
    requires ProcessChunks(parse, id, h, buffer, chunks[..|chunks| - 1]) == Process(parse, id, h, sofar)
    ensures ProcessChunks(parse, id, h, buffer, chunks) == Process(parse, id, h, sofar + chunks[|chunks| - 1])
  {
    var last := chunks[|chunks| - 1];
    var before := Process(parse, id, h, sofar);
    assert ProcessChunks(parse, id, h, buffer, chunks) == Process(parse, id, before.0, before.1 + last);
    ProcessConcat(parse, id, h, sofar, last);
  }

  /** However the stream is cut into chunks, the same lines are handled in the same order, the world ends
      up the same and the same residue is left (newline-free, by `ResidueHasNoNewline`). */
  lemma {:induction false} ChunkingIrrelevant(parse: string -> Command, id: u16, h: Handled, buffer: string,
                                              chunks: seq<string>)
    requires '\n' !in buffer
    ensures ProcessChunks(parse, id, h, buffer, chunks) == Process(parse, id, h, buffer + Concat(chunks))
  {
    if chunks == [] {
      ProcessResidue(parse, id, h, buffer);
      assert buffer + "" == buffer;
    } else {
      var init, last := chunks[..|chunks| - 1], chunks[|chunks| - 1];
      ChunkingIrrelevant(parse, id, h, buffer, init);
      NextChunk(parse, id, h, buffer, chunks, buffer + Concat(init));
      assert buffer + Concat(init) + last == buffer + Concat(chunks);
    }
  }

  // ----- what the lines of a stream do

  predicate IsInput(parse: string -> Command, line: string) {
    line != "" && parse(line).In?
  }

  predicate IsBye(parse: string -> Command, line: string) {
    line != "" && parse(line).Bye?
  }

  /** The commands of the IN lines, in order. */
  function Commands(parse: string -> Command, lines: seq<string>): (cmds: seq<InputCmd>)
    ensures |cmds| <= |lines|
  {
    if lines == [] then []
    else
      var init, last := Commands(parse, lines[..|lines| - 1]), lines[|lines| - 1];
      if IsInput(parse, last)
      then
        var c := parse(last);
        init + [InputCmd(c.seqNo, CastI8(c.mx), CastI8(c.my))]
      else init
  }

  /** The cast keeps every value of a signed byte, and forgets multiples of 256. */
  lemma CastKeeps(v: int, k: int)
    ensures -128 <= v <= 127 ==> CastI8(v) == v
    ensures CastI8(v + 0x100 * k) == CastI8(v)
  {
    assert (v + 0x100 * k) % 0x100 == v % 0x100;
  }

  /** The lines of a connection are inputs of its own player, offered in order; they are counted, whether accepted or
      not; a BYE marks the connection; nobody else is touched. */
  ghost predicate DoneBy(parse: string -> Command, id: u16, h: Handled, lines: seq<string>, r: Handled) {
    && r.players.Keys == h.players.Keys
    && (id in h.players ==> r.players[id] == OfferAll(h.players[id], Commands(parse, lines)))
    && (forall q :: q in h.players && q != id ==> r.players[q] == h.players[q])
    && r.inputs == h.inputs + |Commands(parse, lines)|
    && (r.closing <==> h.closing || exists line :: line in lines && IsBye(parse, line))
  }

  lemma {:induction false} LinesDone(parse: string -> Command, id: u16, h: Handled, lines: seq<string>)
    ensures DoneBy(parse, id, h, lines, HandleAll(parse, id, h, lines))
  {
    if lines != [] {
      var init, last := lines[..|lines| - 1], lines[|lines| - 1];
      LinesDone(parse, id, h, init);
      LineDone(parse, id, h, init, last, HandleAll(parse, id, h, init));
      var handle := (h: Handled, line: string) => HandleLine(parse, id, h, line);
      assert Fold(handle, h, lines) == handle(Fold(handle, h, init), last);
      assert lines == init + [last];
    }
  }

  lemma ByeNext(parse: string -> Command, init: seq<string>, last: string)
    ensures (exists line :: line in init + [last] && IsBye(parse, line))
            <==> (exists line :: line in init && IsBye(parse, line)) || IsBye(parse, last)
  {
    if line :| line in init && IsBye(parse, line) {
      assert line in init + [last];
    }
    assert last in init + [last];
  }

  lemma LineDone(parse: string -> Command, id: u16, h: Handled, init: seq<string>, last: string, r: Handled)
    requires DoneBy(parse, id, h, init, r)
    ensures DoneBy(parse, id, h, init + [last], HandleLine(parse, id, r, last))
  {
    var lines := init + [last];
    assert lines[..|lines| - 1] == init;
    assert forall line :: line in lines <==> line in init || line == last;
    ByeNext(parse, init, last);
    if IsInput(parse, last) {
      var cmds := Commands(parse, lines);
      assert cmds[..|cmds| - 1] == Commands(parse, init);
    }
  }

  /** Over a whole connection, however the stream is cut into chunks. */
  lemma StreamDone(parse: string -> Command, id: u16, h: Handled, buffer: string, chunks: seq<string>)
    requires '\n' !in buffer
    ensures var end := ProcessChunks(parse, id, h, buffer, chunks);
            DoneBy(parse, id, h, Frame(buffer + Concat(chunks)).lines, end.0)
  {
    ChunkingIrrelevant(parse, id, h, buffer, chunks);
    LinesDone(parse, id, h, Frame(buffer + Concat(chunks)).lines);
  }

  /** A line that asks for a direction, with a number that is not stale, gets it. */
  lemma LineSteers(parse: string -> Command, id: u16, h: Handled, line: string, seqNo: u32, mx: int, my: int)
    requires line != "" && parse(line) == In(seqNo, mx, my) && -1 <= mx <= 1 && -1 <= my <= 1
    requires id in h.players && h.players[id].latestSeenSeq <= seqNo
    ensures var p := HandleLine(parse, id, h, line).players[id];
            p.pendingMx == mx && p.pendingMy == my && p.latestSeenSeq == seqNo
  {
    CastKeeps(mx, 0);
    CastKeeps(my, 0);
  }

  /** `std::string::find('\n')`. */
  method FindNewline(s: string) returns (nl: Option<nat>)
    ensures nl.None? ==> '\n' !in s
    ensures nl.Some? ==> nl.value < |s| && s[nl.value] == '\n' && '\n' !in s[..nl.value]
  {
    var i := 0;
    while i < |s|
      invariant 0 <= i <= |s| && '\n' !in s[..i]
    {
      if s[i] == '\n' { return Some(i); }
      i := i + 1;
    }
    return None;
  }

  class TcpClient {
    const playerId: u16
    var closing: bool       // fd == -1: marked for removal
    var rxBuffer: string

    constructor (playerId: u16)
      ensures this.playerId == playerId && !closing && rxBuffer == ""
    {
      this.playerId := playerId;
      closing, rxBuffer := false, "";
    }

    method ProcessLines(world: WorldState, parse: string -> Command, received: nat) returns (inputs: nat)
      requires world.Valid()
      modifies this, world
      ensures world.Valid() && world.tick == old(world.tick)
      ensures (Handled(world.players, inputs, closing), rxBuffer)
              == Process(parse, playerId, old(Handled(world.players, received, closing)), old(rxBuffer))
      ensures DoneBy(parse, playerId, old(Handled(world.players, received, closing)), Frame(old(rxBuffer)).lines,
                     Handled(world.players, inputs, closing))
    {
      inputs := received;
      LinesDone(parse, playerId, Handled(world.players, received, closing), Frame(rxBuffer).lines);
      ghost var goal := Process(parse, playerId, Handled(world.players, received, closing), rxBuffer);
      var nl: Option<nat> := FindNewline(rxBuffer);
      while nl.Some?
        invariant world.Valid() && world.tick == old(world.tick)
        invariant nl.Some? ==> nl.value < |rxBuffer| && rxBuffer[nl.value] == '\n' && '\n' !in rxBuffer[..nl.value]
        invariant nl.None? ==> '\n' !in rxBuffer
        invariant Process(parse, playerId, Handled(world.players, inputs, closing), rxBuffer) == goal
        decreases |rxBuffer|
      {
        ProcessFirstLine(parse, playerId, Handled(world.players, inputs, closing), rxBuffer, nl.value);
        var line := rxBuffer[..nl.value];
        rxBuffer := rxBuffer[nl.value + 1..];
        inputs := HandleOne(world, parse, line, inputs);
        nl := FindNewline(rxBuffer);
      }
      ProcessResidue(parse, playerId, Handled(world.players, inputs, closing), rxBuffer);
    }

    /** The body of the loop once a line has been cut off. */
    method HandleOne(world: WorldState, parse: string -> Command, line: string, received: nat)
      returns (inputs: nat)
      requires world.Valid()
      modifies this`closing, world
      ensures world.Valid() && world.tick == old(world.tick)
      ensures Handled(world.players, inputs, closing)
              == HandleLine(parse, playerId, old(Handled(world.players, received, closing)), line)
    {
      inputs := received;
      if line == "" { return; }
      match parse(line)
      case In(seqNo, mx, my) =>
        var _ := world.ApplyInput(playerId, seqNo, CastI8(mx), CastI8(my));
        inputs := inputs + 1;
      case Bye =>
        closing := true;
      case Other =>
    }
  }

  /** The least id in 1..MAX_PLAYERS that no connected client has, 0 if there is none. */
  method AllocId(taken: seq<u16>) returns (id: u16)
    ensures id == 0 ==> forall i: u16 :: 1 <= i <= MAX_PLAYERS ==> i in taken
    ensures id != 0 ==> 1 <= id <= MAX_PLAYERS && id !in taken && forall i: u16 :: 1 <= i < id ==> i in taken
  {
    var i: u16 := 1;
    while i <= MAX_PLAYERS
      invariant 1 <= i <= MAX_PLAYERS + 1
      invariant forall k: u16 :: 1 <= k < i ==> k in taken
    {
      var used, j := false, 0;
      while j < |taken| && !used
        invariant 0 <= j <= |taken| && (used ==> i in taken) && (!used ==> i !in taken[..j])
      {
        used := taken[j] == i;
        j := j + 1;
      }
      if !used { return i; }
      i := i + 1;
    }
    return 0;
  }
}
