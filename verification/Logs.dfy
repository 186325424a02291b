/** The message log as every store implements it: a map from names to sequences. */
module Logs {
  import opened Messages

  type Log = map<string, seq<Message>>

  function LogOf(logs: Log, name: string): seq<Message>
  {
    if name in logs then logs[name] else []
  }

  function Appended(logs: Log, name: string, m: Message): Log
  {
    logs[name := LogOf(logs, name) + [m]]
  }

  function Cleared(logs: Log, name: string): Log
  {
    logs - {name}
  }

  // ---- What a store holds after any use -------------------------------------------

  datatype Op = Append(name: string, message: Message) | Clear(name: string)

  function Apply(logs: Log, op: Op): Log
  {
    match op
    case Append(name, m) => Appended(logs, name, m)
    case Clear(name) => Cleared(logs, name)
  }

  function Run(logs: Log, ops: seq<Op>): Log
  {
    if ops == [] then logs else Apply(Run(logs, ops[..|ops| - 1]), ops[|ops| - 1])
  }

  /** The place after the last `Clear(name)`, 0 if there is none. */
  function AfterLastClear(ops: seq<Op>, name: string): (n: nat)
    ensures n <= |ops| && forall i | n <= i < |ops| :: ops[i] != Clear(name)
    ensures n > 0 ==> ops[n - 1] == Clear(name)
  {
    if ops == [] then 0
    else if ops[|ops| - 1] == Clear(name) then |ops|
    else AfterLastClear(ops[..|ops| - 1], name)
  }

  /** The messages appended to `name` by `ops`, in order. */
  function AppendedTo(ops: seq<Op>, name: string): seq<Message>
  {
    if ops == [] then []
    else
      AppendedTo(ops[..|ops| - 1], name) +
      (match ops[|ops| - 1]
       case Append(n, m) => if n == name then [m] else []
       case Clear(_) => [])
  }

  /** A log holds exactly what was appended to it since it was last cleared, in order,
      whatever was done to other logs. */
  lemma {:induction false} HoldsSinceLastClear(ops: seq<Op>, name: string)
    ensures LogOf(Run(map[], ops), name) ==
            AppendedTo(ops[AfterLastClear(ops, name)..], name)
  {
    if ops != [] {
      var init, op := ops[..|ops| - 1], ops[|ops| - 1];
      HoldsSinceLastClear(init, name);
      if op != Clear(name) {
        var since := ops[AfterLastClear(ops, name)..];
        assert since[..|since| - 1] == init[AfterLastClear(init, name)..];
      }
    }
  }
}
