/** Observable values and the observable hash map: channels to observers that
    may hang up at any time, and their purging when a value is replaced. */
module Observables {
  import opened Results

  // ------------------------------------------------------ as values

  /** A sender's view of one observer: who, whether it still listens, and all it was sent. */
  datatype Line<C, T> = Line(id: C, open: bool, log: seq<T>)

  function Open<C, T>(lines: seq<Line<C, T>>): (r: seq<Line<C, T>>)
    ensures forall i :: 0 <= i < |r| ==> r[i].open && r[i] in lines
    ensures forall i :: 0 <= i < |lines| && lines[i].open ==> lines[i] in r
  {
    if lines == [] then []
    else
      var last := lines[|lines| - 1];
      Open(lines[..|lines| - 1]) + if last.open then [last] else []
  }

  /** Sends v to the open lines and forgets the others. */
  function Broadcast<C, T>(lines: seq<Line<C, T>>, v: T): (r: seq<Line<C, T>>)
    ensures |r| == |Open(lines)|
    ensures forall i :: 0 <= i < |r| ==> r[i] == Open(lines)[i].(log := Open(lines)[i].log + [v])
  {
    var open := Open(lines);
    seq(|open|, i requires 0 <= i < |open| => open[i].(log := open[i].log + [v]))
  }

  datatype Obs<C, T> = Obs(value: T, lines: seq<Line<C, T>>) {
    function Observe(id: C): Obs<C, T> {
      Obs(value, lines + [Line(id, true, [value])])
    }

    function Purge(): Obs<C, T> {
      Obs(value, Open(lines))
    }
  }

  function Replaced<C, T(==)>(o: Obs<C, T>, v: T): (r: Obs<C, T>)
    ensures r.value == v
  {
    if o.value == v then o.Purge() else Obs(v, Broadcast(o.lines, v))
  }

  /** The observer with this name no longer listens. */
  function Closed<C(==), T>(lines: seq<Line<C, T>>, id: C): (r: seq<Line<C, T>>) {
    seq(|lines|, i requires 0 <= i < |lines| => if lines[i].id == id then lines[i].(open := false) else lines[i])
  }

  /** After a replacement nobody is left who hung up; everybody else is, in order,
      and was sent the value exactly if it is a new one. */
  lemma ReplaceLeavesOpen<C, T>(o: Obs<C, T>, v: T)
    ensures
      var r := Replaced(o, v);
      && r.value == v && |r.lines| == |Open(o.lines)|
      && forall i :: 0 <= i < |r.lines| ==>
           && r.lines[i].open && r.lines[i].id == Open(o.lines)[i].id
           && r.lines[i].log == Open(o.lines)[i].log + if v == o.value then [] else [v]
    ensures |Open(o.lines)| <= |o.lines| && forall line :: line in Open(o.lines) <==> line in o.lines && line.open
  {
    OpenIsPart(o.lines);
  }

  lemma {:induction false} OpenIsPart<C, T>(lines: seq<Line<C, T>>)
    ensures |Open(lines)| <= |lines|
  {
    if lines != [] {
      OpenIsPart(lines[..|lines| - 1]);
    }
  }

  // ------------------------------------------------------ as objects

  /** An unbounded channel: what was sent, and whether the receiver still exists. */
  class Channel<T> {
    var log: seq<T>
    var open: bool

    constructor (first: T)
      ensures log == [first] && open
    {
      log := [first];
      open := true;
    }

    method Send(v: T) returns (ok: bool)
      modifies this
      ensures ok == old(open) && open == old(open)
      ensures log == if ok then old(log) + [v] else old(log)
    {
      ok := open;
      if open {
        log := log + [v];
      }
    }

    /** The observer drops its stream. */
    method Drop()
      modifies this
      ensures !open && log == old(log)
    {
      open := false;
    }

    ghost function Abs(): Line<Channel<T>, T>
      reads this
    {
      Line(this, open, log)
    }
  }

  ghost function Lines<T>(channels: seq<Channel<T>>): (r: seq<Line<Channel<T>, T>>)
    reads channels
    ensures |r| == |channels|
    ensures forall i :: 0 <= i < |r| ==> r[i] == channels[i].Abs()
  {
    if channels == [] then []
    else Lines(channels[..|channels| - 1]) + [channels[|channels| - 1].Abs()]
  }

  ghost predicate Distinct<T>(s: seq<T>) {
    forall i, j :: 0 <= i < j < |s| ==> s[i] != s[j]
  }

  /** kept holds some of the first i senders, each once. */
  ghost predicate Part<T>(kept: seq<T>, senders: seq<T>, i: nat)
    requires i <= |senders|
  {
    Distinct(kept) && forall j :: 0 <= j < |kept| ==> kept[j] in senders[..i]
  }

  lemma PartStep<T>(kept: seq<T>, senders: seq<T>, i: nat)
    requires i < |senders| && Distinct(senders) && Part(kept, senders, i)
    ensures senders[i] !in kept
    ensures Part(kept, senders, i + 1) && Part(kept + [senders[i]], senders, i + 1)
  {
    assert senders[..i + 1] == senders[..i] + [senders[i]];
    forall j | 0 <= j < |kept| ensures kept[j] != senders[i] {
      assert kept[j] in senders[..i];
    }
  }

  lemma OpenStep<C, T>(lines: seq<Line<C, T>>, i: nat)
    requires i < |lines|
    ensures Open(lines[..i + 1]) == Open(lines[..i]) + if lines[i].open then [lines[i]] else []
  {
    assert lines[..i + 1][..i] == lines[..i];
  }

  lemma BroadcastStep<C, T>(lines: seq<Line<C, T>>, i: nat, v: T)
    requires i < |lines|
    ensures Broadcast(lines[..i + 1], v) ==
            Broadcast(lines[..i], v) + if lines[i].open then [lines[i].(log := lines[i].log + [v])] else []
  {
    hide Open, Broadcast;
    OpenStep(lines, i);
  }

  lemma EmptyLines<T>()
    ensures Lines<T>([]) == [] && Open<Channel<T>, T>([]) == []
    ensures forall v: T :: Broadcast<Channel<T>, T>([], v) == []
  {
  }

  lemma LinesStep<T>(channels: seq<Channel<T>>, c: Channel<T>)
    ensures Lines(channels + [c]) == Lines(channels) + [c.Abs()]
  {
    assert (channels + [c])[..|channels|] == channels;
  }

  lemma NoPart<T>(senders: seq<T>)
    ensures Part([], senders, 0)
  {
  }

  lemma PartOfAll<T>(kept: seq<T>, senders: seq<T>)
    requires Part(kept, senders, |senders|)
    ensures Distinct(kept)
    ensures forall c :: c in kept ==> c in senders
  {
    assert senders[..|senders|] == senders;
  }

  class Observable<T(==)> {
    var value: T
    var senders: seq<Channel<T>>

    ghost predicate Valid()
      reads this
    {
      Distinct(senders)
    }

    ghost function Abs(): Obs<Channel<T>, T>
      reads this, Channels()
    {
      Obs(value, Lines(senders))
    }

    ghost function Channels(): set<Channel<T>>
      reads this
    {
      set c | c in senders
    }

    constructor (value: T)
      ensures Valid() && senders == [] && Channels() == {}
      ensures Abs() == Obs(value, [])
    {
      this.value := value;
      senders := [];
    }

    method Observe() returns (stream: Channel<T>)
      requires Valid()
      modifies this
      ensures Valid() && fresh(stream) && Channels() == old(Channels()) + {stream}
      ensures Abs() == old(Abs()).Observe(stream)
      ensures value == old(value) && Abs().lines == old(Abs()).lines + [Line(stream, true, [value])]
    {
      stream := new Channel(value);
      senders := senders + [stream];
      assert senders[..|senders| - 1] == old(senders);
    }

    /** Keeps the senders whose observers still listen. */
    method RetainOpen()
      requires Valid()
      modifies this`senders
      ensures Valid() && value == old(value)
      ensures Abs() == old(Abs()).Purge()
      ensures Channels() <= old(Channels())
    {
      hide Open, Broadcast, Lines, Part;
      EmptyLines<T>();
      var kept: seq<Channel<T>> := [];
      NoPart(senders);
      ghost var lines := Lines(senders);
      for i := 0 to |senders|
        invariant senders == old(senders) && lines == Lines(senders)
        invariant Part(kept, senders, i)
        invariant Lines(kept) == Open(lines[..i])
      {
        OpenStep(lines, i);
        PartStep(kept, senders, i);
        if senders[i].open {
          LinesStep(kept, senders[i]);
          kept := kept + [senders[i]];
        }
      }
      assert lines[..|senders|] == lines;
      PartOfAll(kept, senders);
      senders := kept;
    }

    /** Sends v to the senders whose observers still listen and keeps those. */
    method SendRetaining(v: T)
      requires Valid()
      modifies this`senders, Channels()
      ensures Valid() && value == old(value)
      ensures Abs() == Obs(value, Broadcast(old(Abs()).lines, v))
      ensures Channels() <= old(Channels())
    {
      hide Open, Broadcast, Lines, Part;
      EmptyLines<T>();
      var kept: seq<Channel<T>> := [];
      NoPart(senders);
      ghost var lines := Lines(senders);
      for i := 0 to |senders|
        invariant senders == old(senders)
        invariant Part(kept, senders, i)
        invariant forall j :: i <= j < |senders| ==> senders[j].Abs() == lines[j]
        invariant Lines(kept) == Broadcast(lines[..i], v)
      {
        BroadcastStep(lines, i, v);
        PartStep(kept, senders, i);
        assert lines[i] == senders[i].Abs();
        var ok := senders[i].Send(v);
        if ok {
          LinesStep(kept, senders[i]);
          kept := kept + [senders[i]];
        }
      }
      assert lines[..|senders|] == lines;
      PartOfAll(kept, senders);
      senders := kept;
    }

    method Replace(v: T) returns (oldValue: T)
      requires Valid()
      modifies this, Channels()
      ensures Valid() && oldValue == old(value)
      ensures Abs() == Replaced(old(Abs()), v)
      ensures Channels() <= old(Channels())
    {
      oldValue := value;
      value := v;
      if oldValue == v {
        RetainOpen();
      } else {
        SendRetaining(v);
      }
    }

    /** The value, if no observer is left. */
    method TryIntoUnobserved() returns (r: Option<T>)
      requires Valid()
      modifies this`senders
      ensures Valid() && value == old(value)
      ensures Abs() == old(Abs()).Purge()
      ensures r == if Abs().lines == [] then Some(value) else None
      ensures Channels() <= old(Channels())
    {
      RetainOpen();
      r := if senders == [] then Some(value) else None;
    }
  }
}
