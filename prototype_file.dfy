/** `PrototypeFile` (pkgbuild.py and bin/pkgbuild.py, identical in both):
    the SVR4 `prototype(4)` file being written, plus the four optional
    installation scripts. The first line sent to a script opens it, writes
    the shell line and registers the script in the prototype with an
    `i <script>` entry; `close` makes the opened scripts executable.

    The files are modelled as the sequences of chunks written to them, in
    order. The pure functions `Step` and `Run` say what a sequence of calls
    leaves behind; the class is proved to follow them. */
module Prototype {
  import opened Wrappers
  import opened Text

  /** The four installation scripts, in the order the class declares them. */
  datatype Slot = Preinstall | Postinstall | Preremove | Postremove

  /** The file name of a script, which is also its prototype entry name. */
  function SlotName(s: Slot): string {
    match s
    case Preinstall => "preinstall"
    case Postinstall => "postinstall"
    case Preremove => "preremove"
    case Postremove => "postremove"
  }

  /** The first chunk of every script. */
  const Shebang := "#!/bin/sh\n"

  /** `include(name, path)`: `i name=path` when a non-empty path is given,
      else `i name`, each on a line of its own. */
  function IncludeLine(name: string, path: Option<string>): (line: string)
    ensures path.Some? && path.value != "" ==> line == "i " + name + "=" + path.value + "\n"
    ensures path.None? || path.value == "" ==> line == "i " + name + "\n"
  {
    if path.Some? && path.value != "" then "i " + name + "=" + path.value + "\n"
    else "i " + name + "\n"
  }

  /** The entry that registers a script in the prototype. */
  function SlotEntry(s: Slot): string {
    IncludeLine(SlotName(s), None)
  }

  /** The calls that write: `write`, `include`, and the four script
      methods, which differ only in their slot. */
  datatype Call =
    | Write(data: string)
    | Include(name: string, path: Option<string>)
    | Send(slot: Slot, line: string)

  /** What has been written: the prototype's chunks, the chunks of every
      opened script, the scripts made executable, and whether `close` ran. */
  datatype State = State(
    prototype: seq<string>,
    scripts: map<Slot, seq<string>>,
    executable: set<Slot>,
    closed: bool)

  /** Right after construction: an empty prototype, no script opened. */
  const Initial := State([], map[], {}, false)

  /** The effect of one call on an open file. */
  function Step(st: State, c: Call): (r: State)
    ensures r.executable == st.executable && r.closed == st.closed
    ensures c.Send? && c.slot in st.scripts ==> r.prototype == st.prototype
    ensures c.Send? && c.slot !in st.scripts ==> r.prototype == st.prototype + [SlotEntry(c.slot)]
    ensures c.Send? ==> r.scripts.Keys == st.scripts.Keys + {c.slot}
    ensures c.Send? ==> forall t :: t in st.scripts && t != c.slot ==> r.scripts[t] == st.scripts[t]
    ensures !c.Send? ==> r.scripts == st.scripts
  {
    match c
    case Write(data) => st.(prototype := st.prototype + [data])
    case Include(name, path) => st.(prototype := st.prototype + [IncludeLine(name, path)])
    case Send(s, line) =>
      if s in st.scripts then st.(scripts := st.scripts[s := st.scripts[s] + [line, "\n"]])
      else st.(prototype := st.prototype + [SlotEntry(s)], scripts := st.scripts[s := [Shebang, line, "\n"]])
  }

  /** The state after a sequence of calls on a fresh file. */
  function Run(calls: seq<Call>): State
    decreases |calls|
  {
    if |calls| == 0 then Initial else Step(Run(calls[..|calls| - 1]), calls[|calls| - 1])
  }

  /** `close`: exactly the opened scripts are made executable. */
  function Closed(st: State): (r: State)
    ensures r.prototype == st.prototype && r.scripts == st.scripts
    ensures forall s :: s in r.executable <==> s in st.scripts
    ensures r.closed
  {
    st.(executable := st.scripts.Keys, closed := true)
  }

  // ---------------------------------------------------------------------
  // Independent descriptions of what a run writes.

  /** The lines sent to script `s`, in order. */
  function SentTo(calls: seq<Call>, s: Slot): seq<string>
    decreases |calls|
  {
    if |calls| == 0 then []
    else
      var c := calls[|calls| - 1];
      SentTo(calls[..|calls| - 1], s) + (if c.Send? && c.slot == s then [c.line] else [])
  }

  /** Each line followed by a newline. */
  function Terminated(lines: seq<string>): seq<string>
    decreases |lines|
  {
    if |lines| == 0 then [] else Terminated(lines[..|lines| - 1]) + [lines[|lines| - 1], "\n"]
  }

  /** The chunks written to the prototype by `write` and `include` calls
      made directly, leaving out the entries the script methods add. */
  function Direct(calls: seq<Call>): seq<string>
    decreases |calls|
  {
    if |calls| == 0 then []
    else
      var c := calls[|calls| - 1];
      Direct(calls[..|calls| - 1]) +
        (match c
         case Write(data) => [data]
         case Include(name, path) => [IncludeLine(name, path)]
         case Send(_, _) => [])
  }

  function Count(xs: seq<string>, x: string): nat
    decreases |xs|
  {
    if |xs| == 0 then 0 else Count(xs[..|xs| - 1], x) + (if xs[|xs| - 1] == x then 1 else 0)
  }

  lemma {:induction false} CountConcat(a: seq<string>, b: seq<string>, x: string)
    ensures Count(a + b, x) == Count(a, x) + Count(b, x)
    decreases |b|
  {
    if |b| == 0 {
      assert a + b == a;
    } else {
      assert (a + b)[..|a + b| - 1] == a + b[..|b| - 1];
      CountConcat(a, b[..|b| - 1], x);
    }
  }

  /** A script exists exactly when a line was sent to it, and then it is
      the shell line followed by every line sent to it, each ended by a
      newline, in the order sent. */
  lemma {:induction false} ScriptsRecordSends(calls: seq<Call>, s: Slot)
    ensures s in Run(calls).scripts <==> |SentTo(calls, s)| > 0
    ensures s in Run(calls).scripts ==> Run(calls).scripts[s] == [Shebang] + Terminated(SentTo(calls, s))
    decreases |calls|
  {
    if |calls| > 0 {
      var init, c := calls[..|calls| - 1], calls[|calls| - 1];
      ScriptsRecordSends(init, s);
      var lines := SentTo(init, s);
      if c.Send? && c.slot == s {
        assert SentTo(calls, s) == lines + [c.line];
        TerminatedSnoc(lines, c.line);
        SendRecorded(Run(init), lines, c.slot, c.line);
      } else {
        assert SentTo(calls, s) == lines + [];
        assert lines + [] == lines;
        StepKeepsOther(Run(init), c, s);
      }
    }
  }

  lemma TerminatedSnoc(lines: seq<string>, x: string)
    ensures Terminated(lines + [x]) == Terminated(lines) + [x, "\n"]
  {
    assert (lines + [x])[..|lines|] == lines;
  }

  /** A call that sends nothing to `s` leaves that script as it was. */
  lemma StepKeepsOther(st: State, c: Call, s: Slot)
    requires !(c.Send? && c.slot == s)
    ensures s in Step(st, c).scripts <==> s in st.scripts
    ensures s in st.scripts ==> Step(st, c).scripts[s] == st.scripts[s]
  {
  }

  /** One more line sent to a script whose content is the shell line and
      the earlier lines, or which is absent when there were none. */
  lemma SendRecorded(st: State, lines: seq<string>, s: Slot, line: string)
    requires s in st.scripts <==> |lines| > 0
    requires s in st.scripts ==> st.scripts[s] == [Shebang] + Terminated(lines)
    ensures s in Step(st, Send(s, line)).scripts
    ensures Step(st, Send(s, line)).scripts[s] == [Shebang] + (Terminated(lines) + [line, "\n"])
  {
    if s in st.scripts {
      AppendAssoc([Shebang], Terminated(lines), [line, "\n"]);
    } else {
      assert lines == [];
      assert Terminated([]) + [line, "\n"] == [line, "\n"];
    }
  }

  /** The entries naming different scripts are different lines. */
  lemma SlotEntriesDistinct(s: Slot, t: Slot)
    requires s != t
    ensures SlotEntry(s) != SlotEntry(t)
  {
    assert SlotEntry(s)[2..|SlotEntry(s)| - 1] == SlotName(s);
    assert SlotEntry(t)[2..|SlotEntry(t)| - 1] == SlotName(t);
  }

  /** The prototype registers every script once: the entry `i <script>`
      occurs as often as it was written directly, plus one if the script
      was used and none otherwise. */
  lemma CountSnoc(xs: seq<string>, y: string, x: string)
    ensures Count(xs + [y], x) == Count(xs, x) + (if y == x then 1 else 0)
  {
    assert (xs + [y])[..|xs|] == xs;
  }

  lemma {:induction false} OneEntryPerUsedSlot(calls: seq<Call>, s: Slot)
    ensures Count(Run(calls).prototype, SlotEntry(s)) ==
            Count(Direct(calls), SlotEntry(s)) + (if |SentTo(calls, s)| > 0 then 1 else 0)
    decreases |calls|
  {
    if |calls| > 0 {
      var init, c := calls[..|calls| - 1], calls[|calls| - 1];
      OneEntryPerUsedSlot(init, s);
      OneEntryStep(init, c, s);
      ButLastAndLast(calls);
    }
  }

  /** One more call keeps the count of a script's entry in step. */
  lemma OneEntryStep(init: seq<Call>, c: Call, s: Slot)
    requires Count(Run(init).prototype, SlotEntry(s)) ==
             Count(Direct(init), SlotEntry(s)) + (if |SentTo(init, s)| > 0 then 1 else 0)
    ensures Count(Run(init + [c]).prototype, SlotEntry(s)) ==
            Count(Direct(init + [c]), SlotEntry(s)) + (if |SentTo(init + [c], s)| > 0 then 1 else 0)
  {
    var calls := init + [c];
    assert calls[..|calls| - 1] == init;
    match c
    case Write(data) =>
      OneEntryDirect(init, c, data, s);
    case Include(name, path) =>
      OneEntryDirect(init, c, IncludeLine(name, path), s);
    case Send(t, line) =>
      assert Direct(calls) == Direct(init);
      OneEntrySend(Run(init), t, line, s);
      ScriptsRecordSends(init, t);
      ScriptsRecordSends(init, s);
  }

  /** A chunk written directly counts once on both sides. */
  lemma OneEntryDirect(init: seq<Call>, c: Call, chunk: string, s: Slot)
    requires c == Write(chunk) || (c.Include? && chunk == IncludeLine(c.name, c.path))
    requires Count(Run(init).prototype, SlotEntry(s)) ==
             Count(Direct(init), SlotEntry(s)) + (if |SentTo(init, s)| > 0 then 1 else 0)
    ensures Count(Run(init + [c]).prototype, SlotEntry(s)) ==
            Count(Direct(init + [c]), SlotEntry(s)) + (if |SentTo(init + [c], s)| > 0 then 1 else 0)
  {
    var calls := init + [c];
    assert calls[..|calls| - 1] == init;
    assert Run(calls).prototype == Run(init).prototype + [chunk];
    assert Direct(calls) == Direct(init) + [chunk];
    CountSnoc(Run(init).prototype, chunk, SlotEntry(s));
    CountSnoc(Direct(init), chunk, SlotEntry(s));
    assert SentTo(calls, s) == SentTo(init, s) + [];
  }

  /** A line sent to script `t` adds the entry of `t` when `t` was not
      open yet, and nothing otherwise. */
  lemma OneEntrySend(st: State, t: Slot, line: string, s: Slot)
    ensures Count(Step(st, Send(t, line)).prototype, SlotEntry(s)) ==
            Count(st.prototype, SlotEntry(s)) + (if t !in st.scripts && t == s then 1 else 0)
  {
    if t !in st.scripts {
      CountSnoc(st.prototype, SlotEntry(t), SlotEntry(s));
      if t != s {
        SlotEntriesDistinct(s, t);
      }
    }
  }

  /** `close` makes exactly the scripts that were sent a line executable. */
  lemma CloseMarksUsedSlots(calls: seq<Call>)
    ensures forall s :: s in Closed(Run(calls)).executable <==> |SentTo(calls, s)| > 0
  {
    forall s: Slot
      ensures s in Closed(Run(calls)).executable <==> |SentTo(calls, s)| > 0
    {
      ScriptsRecordSends(calls, s);
    }
  }

  /** What stays true of the files whatever is written: every opened
      script starts with the shell line and is registered in the
      prototype, and only a closed file has executable scripts. */
  predicate Inv(st: State) {
    && (forall s :: s in st.scripts ==> |st.scripts[s]| > 0 && st.scripts[s][0] == Shebang && SlotEntry(s) in st.prototype)
    && st.executable <= st.scripts.Keys
    && (!st.closed ==> st.executable == {})
  }

  lemma StepKeepsInv(st: State, c: Call)
    requires Inv(st)
    ensures Inv(Step(st, c))
  {
    var r := Step(st, c);
    forall s | s in r.scripts
      ensures |r.scripts[s]| > 0 && r.scripts[s][0] == Shebang && SlotEntry(s) in r.prototype
    {
      if s in st.scripts {
        assert SlotEntry(s) in st.prototype;
        assert st.prototype <= r.prototype;
      }
    }
  }

  lemma {:induction false} RunKeepsInv(calls: seq<Call>)
    ensures Inv(Run(calls))
    decreases |calls|
  {
    if |calls| > 0 {
      RunKeepsInv(calls[..|calls| - 1]);
      StepKeepsInv(Run(calls[..|calls| - 1]), calls[|calls| - 1]);
    }
  }

  // ---------------------------------------------------------------------
  // The object.

  class PrototypeFile {
    var prototype: seq<string>
    var scripts: map<Slot, seq<string>>
    var executable: set<Slot>
    var closed: bool

    function Value(): State
      reads this
    {
      State(prototype, scripts, executable, closed)
    }

    /** Opening `prototype` for writing. */
    constructor ()
      ensures Value() == Initial
    {
      prototype, scripts, executable, closed := [], map[], {}, false;
    }

    /** `write(data)`: the chunk goes to the prototype as it is. */
    method Write(data: string)
      requires !closed
      modifies this
      ensures Value() == Step(old(Value()), Call.Write(data))
    {
      prototype := prototype + [data];
    }

    /** `include(name, path=None)`. */
    method Include(name: string, path: Option<string> := None)
      requires !closed
      modifies this
      ensures Value() == Step(old(Value()), Call.Include(name, path))
    {
      if path.Some? && path.value != "" {
        prototype := prototype + ["i " + name + "=" + path.value + "\n"];
      } else {
        prototype := prototype + ["i " + name + "\n"];
      }
    }

    /** `preinstall(line)`, `postinstall(line)`, `preremove(line)` and
        `postremove(line)`: open the script on first use, then append the
        line and a newline. */
    method Send(slot: Slot, line: string)
      requires !closed
      modifies this
      ensures Value() == Step(old(Value()), Call.Send(slot, line))
    {
      if slot !in scripts {
        scripts := scripts[slot := [Shebang]];
        Include(SlotName(slot));
        assert prototype == old(prototype) + [SlotEntry(slot)];
        assert scripts[slot] + [line, "\n"] == [Shebang, line, "\n"];
      }
      scripts := scripts[slot := scripts[slot] + [line, "\n"]];
    }

    /** `close`: chmod 0755 every opened script, then close the prototype. */
    method Close()
      modifies this
      ensures Value() == Closed(old(Value()))
    {
      var marked: set<Slot> := {};
      if Preinstall in scripts {
        marked := marked + {Preinstall};
      }
      if Postinstall in scripts {
        marked := marked + {Postinstall};
      }
      if Preremove in scripts {
        marked := marked + {Preremove};
      }
      if Postremove in scripts {
        marked := marked + {Postremove};
      }
      assert forall s :: s in marked <==> s in scripts by {
        forall s: Slot ensures s in marked <==> s in scripts {
          match s
          case Preinstall =>
          case Postinstall =>
          case Preremove =>
          case Postremove =>
        }
      }
      executable := marked;
      closed := true;
    }
  }
}
