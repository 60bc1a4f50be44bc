/**
 * The naming rules of the protoc-gen-bee code generator
 * (protoc-gen-bee/main.go): the Go type each protobuf field kind is written
 * as, how a message name is classified as a command, an event or neither,
 * the event type derived from a name, and the loop that builds one file's
 * command and event lists. Reading the descriptors, the aggregate-id option
 * lookup and the template output are not part of this model: each field's
 * kind and aggregate-id flag arrive as data.
 */
module ProtocGenBee {
  import opened Wrappers

  /** A field as the plugin receives it: Go name, protobuf kind number, aggregate-id option. */
  datatype ProtoField = ProtoField(goName: string, kind: int, isAggregateId: bool)

  /** A message as the plugin receives it: Go name and fields in declaration order. */
  datatype ProtoMessage = ProtoMessage(goName: string, fields: seq<ProtoField>)

  /** A field as it is handed to the templates. */
  datatype Field = Field(goName: string, goType: string, isAggregateId: bool)

  datatype Message = Message(name: string, fields: seq<Field>, aggregate: string, eventType: string)

  // ---------------------------------------------------------------- goType

  predicate IsIntKind(kind: int) {
    kind == 3 || kind == 4 || kind == 5 || kind == 17 || kind == 18
  }

  /**
   * goType: double is float64, float is float32, the 64- and 32-bit signed
   * and unsigned-64 kinds and sint32/sint64 are int, string is string, bool
   * is bool; every other kind falls back to string.
   */
  function GoType(kind: int): (t: string)
    ensures t == "float64" <==> kind == 1
    ensures t == "float32" <==> kind == 2
    ensures t == "int" <==> IsIntKind(kind)
    ensures t == "bool" <==> kind == 8
    ensures t == "string" <==> !(kind == 1 || kind == 2 || IsIntKind(kind) || kind == 8)
  {
    if kind == 1 then "float64"
    else if kind == 2 then "float32"
    else if IsIntKind(kind) then "int"
    else if kind == 9 then "string"
    else if kind == 8 then "bool"
    else "string"
  }

  // ---------------------------------------------------------------- strings

  predicate HasPrefix(s: string, p: string) {
    |p| <= |s| && s[..|p|] == p
  }

  predicate HasSuffix(s: string, p: string) {
    |p| <= |s| && s[|s| - |p|..] == p
  }

  predicate OccursAt(s: string, pat: string, j: nat) {
    j + |pat| <= |s| && s[j..j + |pat|] == pat
  }

  /** The index of the first occurrence of a non-empty `pat` in `s`, if any. */
  function IndexOf(s: string, pat: string): (r: Option<nat>)
    requires pat != []
    ensures r.Some? ==> OccursAt(s, pat, r.value) && forall j: nat :: j < r.value ==> !OccursAt(s, pat, j)
    ensures r.None? ==> forall j: nat :: !OccursAt(s, pat, j)
    decreases |s|
  {
    if |s| < |pat| then None
    else if s[..|pat|] == pat then
      assert s[0..|pat|] == s[..|pat|];
      Some(0)
    else
      assert forall j: nat :: 1 <= j ==> (OccursAt(s, pat, j) <==> OccursAt(s[1..], pat, j - 1)) by {
        forall j: nat | 1 <= j ensures OccursAt(s, pat, j) <==> OccursAt(s[1..], pat, j - 1) {
          if j + |pat| <= |s| {
            var here, there := s[j..j + |pat|], s[1..][j - 1..j - 1 + |pat|];
            assert forall k :: 0 <= k < |here| ==> here[k] == there[k];
            assert here == there;
          }
        }
      }
      assert !OccursAt(s, pat, 0) by {
        assert s[0..|pat|] == s[..|pat|];
      }
      match IndexOf(s[1..], pat)
      case None => None
      case Some(i) => Some(i + 1)
  }

  /** strings.Replace(s, pat, with, 1) for a non-empty `pat`: the first occurrence only. */
  function ReplaceFirst(s: string, pat: string, with: string): string
    requires pat != []
  {
    match IndexOf(s, pat)
    case None => s
    case Some(i) => s[..i] + with + s[i + |pat|..]
  }

  /** When `s` starts with `pat`, the first occurrence is the prefix: replacing it just drops the prefix. */
  lemma ReplaceFirstOfPrefix(s: string, pat: string)
    requires pat != [] && HasPrefix(s, pat)
    ensures ReplaceFirst(s, pat, "") == s[|pat|..]
  {
    assert s[0..|pat|] == s[..|pat|];
    assert IndexOf(s, pat) == Some(0);
    assert s[..0] + "" + s[|pat|..] == s[|pat|..];
  }

  // ---------------------------------------------------------------- classification

  datatype Class = CommandClass | EventClass | Dropped

  /** "Create…" and "…Command" are commands (this test comes first); otherwise "…Created" and "…Event" are events. */
  function Classify(name: string): (k: Class)
    ensures k == CommandClass <==> HasPrefix(name, "Create") || HasSuffix(name, "Command")
    ensures k == EventClass <==> !(HasPrefix(name, "Create") || HasSuffix(name, "Command")) && (HasSuffix(name, "Created") || HasSuffix(name, "Event"))
  {
    if HasPrefix(name, "Create") || HasSuffix(name, "Command") then CommandClass
    else if HasSuffix(name, "Created") || HasSuffix(name, "Event") then EventClass
    else Dropped
  }

  /** The derived event type: "<rest>Created" for "Create<rest>", otherwise the name followed by "ed". */
  function EventTypeOf(name: string): (t: string)
    ensures HasPrefix(name, "Create") ==> t == name[6..] + "Created"
    ensures !HasPrefix(name, "Create") ==> t == name + "ed"
  {
    if HasPrefix(name, "Create") then
      ReplaceFirstOfPrefix(name, "Create");
      ReplaceFirst(name, "Create", "") + "Created"
    else name + "ed"
  }

  // ---------------------------------------------------------------- one file

  function BuildField(f: ProtoField): Field {
    Field(f.goName, GoType(f.kind), f.isAggregateId)
  }

  function BuildFields(fs: seq<ProtoField>): (r: seq<Field>)
    ensures |r| == |fs|
    ensures forall i :: 0 <= i < |fs| ==> r[i] == BuildField(fs[i])
  {
    seq(|fs|, i requires 0 <= i < |fs| => BuildField(fs[i]))
  }

  /** The aggregate of every message of a file: the first message's name, or "" for a file without messages. */
  function AggregateName(file: seq<ProtoMessage>): string {
    if |file| > 0 then file[0].goName else ""
  }

  function BuildMessage(aggregate: string, m: ProtoMessage): Message {
    Message(m.goName, BuildFields(m.fields), aggregate, EventTypeOf(m.goName))
  }

  /** The images under `f` of the elements of `s` that pass `keep`, in order. */
  function Select<T, U>(s: seq<T>, keep: T -> bool, f: T -> U): seq<U>
    decreases |s|
  {
    if s == [] then []
    else Select(s[..|s| - 1], keep, f) + (if keep(s[|s| - 1]) then [f(s[|s| - 1])] else [])
  }

  /** How many elements of `s` pass `keep`. */
  function Count<T>(s: seq<T>, keep: T -> bool): nat
    decreases |s|
  {
    if s == [] then 0 else Count(s[..|s| - 1], keep) + (if keep(s[|s| - 1]) then 1 else 0)
  }

  /** The built messages of class `k` of a file, in file order. */
  function OfClass(file: seq<ProtoMessage>, aggregate: string, k: Class): seq<Message> {
    Select(file, (m: ProtoMessage) => Classify(m.goName) == k, (m: ProtoMessage) => BuildMessage(aggregate, m))
  }

  /** Extending the file by one message extends the list of its class by that message. */
  lemma OfClassSnoc(file: seq<ProtoMessage>, aggregate: string, k: Class, n: nat)
    requires n < |file|
    ensures OfClass(file[..n + 1], aggregate, k)
         == OfClass(file[..n], aggregate, k) + (if Classify(file[n].goName) == k then [BuildMessage(aggregate, file[n])] else [])
  {
    assert file[..n + 1][..n] == file[..n];
  }

  /**
   * One pass of the plugin's message loop: the fields in declaration order,
   * the default event type, and the classification that decides which list
   * the message joins (a "Create…" command gets the "…Created" event type).
   */
  method MessageOf(aggregateName: string, msg: ProtoMessage) returns (m: Message, k: Class)
    ensures m == BuildMessage(aggregateName, msg)
    ensures k == Classify(msg.goName)
  {
    var fields: seq<Field> := [];
    for j := 0 to |msg.fields|
      invariant fields == BuildFields(msg.fields[..j])
    {
      var f := msg.fields[j];
      fields := fields + [Field(f.goName, GoType(f.kind), f.isAggregateId)];
    }
    assert msg.fields[..|msg.fields|] == msg.fields;
    m := Message(msg.goName, fields, aggregateName, msg.goName + "ed");
    var n := m.name;
    if HasPrefix(n, "Create") || HasSuffix(n, "Command") {
      if HasPrefix(n, "Create") {
        m := m.(eventType := ReplaceFirst(n, "Create", "") + "Created");
      }
      k := CommandClass;
    } else if HasSuffix(n, "Created") || HasSuffix(n, "Event") {
      k := EventClass;
    } else {
      k := Dropped;
    }
  }

  /** The plugin's loop over one file's messages: build each message and file it as a command or an event. */
  method ProcessFile(file: seq<ProtoMessage>) returns (events: seq<Message>, commands: seq<Message>)
    ensures events == OfClass(file, AggregateName(file), EventClass)
    ensures commands == OfClass(file, AggregateName(file), CommandClass)
  {
    var aggregateName := "";
    if |file| > 0 {
      aggregateName := file[0].goName;
    }
    events, commands := [], [];
    for i := 0 to |file|
      invariant events == OfClass(file[..i], aggregateName, EventClass)
      invariant commands == OfClass(file[..i], aggregateName, CommandClass)
    {
      var m, k := MessageOf(aggregateName, file[i]);
      OfClassSnoc(file, aggregateName, EventClass, i);
      OfClassSnoc(file, aggregateName, CommandClass, i);
      if k == CommandClass {
        commands := commands + [m];
      } else if k == EventClass {
        events := events + [m];
      }
    }
    assert file[..|file|] == file;
  }

  // ---------------------------------------------------------------- properties of a file

  lemma {:induction false} SelectLength<T, U>(s: seq<T>, keep: T -> bool, f: T -> U)
    ensures |Select(s, keep, f)| == Count(s, keep)
    decreases |s|
  {
    if s != [] {
      SelectLength(s[..|s| - 1], keep, f);
    }
  }

  /** Every selected value is the image of an element that passes `keep`. */
  lemma {:induction false} SelectFrom<T, U>(s: seq<T>, keep: T -> bool, f: T -> U)
    ensures forall y :: y in Select(s, keep, f) ==> exists x :: x in s && keep(x) && y == f(x)
    decreases |s|
  {
    if s != [] {
      var n := |s| - 1;
      SelectFrom(s[..n], keep, f);
      forall y | y in Select(s, keep, f)
        ensures exists x :: x in s && keep(x) && y == f(x)
      {
        if y in Select(s[..n], keep, f) {
          var x :| x in s[..n] && keep(x) && y == f(x);
          assert x in s;
        } else {
          assert s[n] in s && keep(s[n]) && y == f(s[n]);
        }
      }
    }
  }

  /** An element that passes `keep` sits in the selection at the number of passing elements before it. */
  lemma {:induction false} SelectAt<T, U>(s: seq<T>, keep: T -> bool, f: T -> U, i: nat)
    requires i < |s| && keep(s[i])
    ensures Count(s[..i], keep) < |Select(s, keep, f)| && Select(s, keep, f)[Count(s[..i], keep)] == f(s[i])
    decreases |s|
  {
    var n := |s| - 1;
    var front := Select(s[..n], keep, f);
    assert Select(s, keep, f) == front + (if keep(s[n]) then [f(s[n])] else []);
    if i < n {
      assert s[..n][i] == s[i];
      assert s[..n][..i] == s[..i];
      SelectAt(s[..n], keep, f, i);
      assert Select(s, keep, f)[Count(s[..i], keep)] == front[Count(s[..i], keep)];
    } else {
      SelectLength(s[..n], keep, f);
    }
  }

  /** A passing element counts towards every later position. */
  lemma {:induction false} CountGrows<T>(s: seq<T>, keep: T -> bool, i: nat, j: nat)
    requires i < j <= |s| && keep(s[i])
    ensures Count(s[..i], keep) < Count(s[..j], keep)
    decreases j
  {
    assert s[..j][..j - 1] == s[..j - 1];
    if j - 1 > i {
      CountGrows(s, keep, i, j - 1);
    }
  }

  /** Every command is a command name and every event an event name, so no message is in both lists. */
  lemma OfClassIsOfClass(file: seq<ProtoMessage>, aggregate: string, k: Class)
    ensures forall m :: m in OfClass(file, aggregate, k) ==> Classify(m.name) == k && m.aggregate == aggregate
  {
    var keep, build := (m: ProtoMessage) => Classify(m.goName) == k, (m: ProtoMessage) => BuildMessage(aggregate, m);
    SelectFrom(file, keep, build);
    forall m | m in OfClass(file, aggregate, k)
      ensures Classify(m.name) == k && m.aggregate == aggregate
    {
      var x :| x in file && keep(x) && m == build(x);
    }
  }

  lemma ListsAreDisjoint(file: seq<ProtoMessage>)
    ensures forall m :: m in OfClass(file, AggregateName(file), EventClass) ==> m !in OfClass(file, AggregateName(file), CommandClass)
  {
    OfClassIsOfClass(file, AggregateName(file), EventClass);
    OfClassIsOfClass(file, AggregateName(file), CommandClass);
  }

  /**
   * Source order: two messages of class `k` appear in the list of class `k`
   * in the order they have in the file.
   */
  lemma OfClassKeepsOrder(file: seq<ProtoMessage>, aggregate: string, k: Class, i: nat, j: nat)
    requires i < j < |file| && Classify(file[i].goName) == k && Classify(file[j].goName) == k
    ensures exists a, b ::
      (0 <= a < b < |OfClass(file, aggregate, k)|
       && OfClass(file, aggregate, k)[a] == BuildMessage(aggregate, file[i])
       && OfClass(file, aggregate, k)[b] == BuildMessage(aggregate, file[j]))
  {
    var keep, build := (m: ProtoMessage) => Classify(m.goName) == k, (m: ProtoMessage) => BuildMessage(aggregate, m);
    SelectAt(file, keep, build, i);
    SelectAt(file, keep, build, j);
    CountGrows(file, keep, i, j);
    var a, b := Count(file[..i], keep), Count(file[..j], keep);
    assert OfClass(file, aggregate, k)[a] == BuildMessage(aggregate, file[i]);
  }

  /** Every message of class `k` is in the list of class `k`. */
  lemma OfClassContains(file: seq<ProtoMessage>, aggregate: string, k: Class, i: nat)
    requires i < |file| && Classify(file[i].goName) == k
    ensures exists a :: 0 <= a < |OfClass(file, aggregate, k)| && OfClass(file, aggregate, k)[a] == BuildMessage(aggregate, file[i])
  {
    var keep, build := (m: ProtoMessage) => Classify(m.goName) == k, (m: ProtoMessage) => BuildMessage(aggregate, m);
    SelectAt(file, keep, build, i);
    var a := Count(file[..i], keep);
    assert OfClass(file, aggregate, k)[a] == BuildMessage(aggregate, file[i]);
  }
}
