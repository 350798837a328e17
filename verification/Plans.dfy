/** Compiling logical operations to one transition per portable path. */
module Plans {
  import opened Outcomes
  import opened Filesystem
  import opened Records

  datatype TextEdit = TextEdit(id: nat)

  datatype Action =
    | ModifyFile(path: PathName, sha256: Digest, edits: seq<TextEdit>)
    | CreateFile(path: PathName, contents: seq<byte>, permissions: Permissions)
    | DeleteFile(path: PathName, sha256: Digest)
    | RenameFile(from: PathName, to: PathName, sha256: Digest, edits: seq<TextEdit>)
  {
    /** The path this action reads. */
    function Input(): Option<PathName> {
      match this
      case ModifyFile(path, _, _) => Some(path)
      case CreateFile(_, _, _) => None
      case DeleteFile(path, _) => Some(path)
      case RenameFile(from, _, _, _) => Some(from)
    }

    /** The path this action writes. */
    function Output(): Option<PathName> {
      match this
      case ModifyFile(path, _, _) => Some(path)
      case CreateFile(path, _, _) => Some(path)
      case DeleteFile(_, _) => None
      case RenameFile(_, to, _, _) => Some(to)
    }

    predicate Consumes(k: nat) { Input().Some? && Input().value.key == k }

    predicate Produces(k: nat) { Output().Some? && Output().value.key == k }
  }

  datatype InputRole = ModifyRole | DeleteRole | RenameSource(destination: PathName)

  datatype PlannedInput = InputAbsent | InputPresent(operationIndex: nat, sha256: Digest, role: InputRole)

  datatype PlannedOutput =
    | OutputAbsent
    | OutputModify(operationIndex: nat, edits: seq<TextEdit>)
    | OutputCreate(operationIndex: nat, contents: seq<byte>, permissions: Permissions)
    | OutputRename(operationIndex: nat, source: PathName, sha256: Digest, edits: seq<TextEdit>)

  datatype PathTransition = PathTransition(path: PathName, before: PlannedInput, after: PlannedOutput)

  // What compilation promises

  /** The two actions may meet at one path: a modification with itself, or one rename's
      destination with another's source. */
  predicate RolesAllowed(plan: seq<Action>, reader: nat, writer: nat)
    requires reader < |plan| && writer < |plan|
  {
    || (plan[reader].ModifyFile? && plan[writer].ModifyFile? && reader == writer)
    || (plan[reader].RenameFile? && plan[writer].RenameFile?)
  }

  /** No path is read twice or written twice, and only compatible actions share one. */
  ghost predicate Compilable(plan: seq<Action>) {
    && (forall i, j, k: nat | 0 <= i < j < |plan| && plan[i].Consumes(k) :: !plan[j].Consumes(k))
    && (forall i, j, k: nat | 0 <= i < j < |plan| && plan[i].Produces(k) :: !plan[j].Produces(k))
    && (forall i, j, k: nat | 0 <= i < |plan| && 0 <= j < |plan| && plan[i].Consumes(k) && plan[j].Produces(k) ::
          RolesAllowed(plan, i, j))
  }

  /** What makes a plan acceptable, by the kinds of its actions: no two read one path and no two write
      one path, and where one action writes what one reads, they are the same modification, or both are
      renames. */
  lemma CompilableKinds(plan: seq<Action>)
    ensures Compilable(plan) <==>
            && (forall i, j, k: nat | 0 <= i < j < |plan| && plan[i].Consumes(k) :: !plan[j].Consumes(k))
            && (forall i, j, k: nat | 0 <= i < j < |plan| && plan[i].Produces(k) :: !plan[j].Produces(k))
            && (forall i, j, k: nat | 0 <= i < |plan| && 0 <= j < |plan| && plan[i].Consumes(k) && plan[j].Produces(k) ::
                  (plan[i].ModifyFile? && i == j) || (plan[i].RenameFile? && plan[j].RenameFile?))
  {
  }

  /** Renames compile whatever chains and cycles they form, as long as no two start at one path and no
      two end at one. */
  lemma RenamesCompile(plan: seq<Action>)
    requires forall i | 0 <= i < |plan| :: plan[i].RenameFile?
    requires forall i, j | 0 <= i < j < |plan| :: plan[i].from.key != plan[j].from.key && plan[i].to.key != plan[j].to.key
    ensures Compilable(plan)
  {
  }

  function Mention(spellings: map<nat, PathName>, path: PathName): map<nat, PathName> {
    if path.key in spellings then spellings else spellings[path.key := path]
  }

  /** The paths an action mentions, in the order it registers them. */
  function Mentioned(spellings: map<nat, PathName>, action: Action): map<nat, PathName> {
    match action
    case ModifyFile(path, _, _) => Mention(spellings, path)
    case CreateFile(path, _, _) => Mention(spellings, path)
    case DeleteFile(path, _) => Mention(spellings, path)
    case RenameFile(from, to, _, _) => Mention(Mention(spellings, from), to)
  }

  /** The first spelling of every path the plan touches. */
  function Spellings(plan: seq<Action>): map<nat, PathName> {
    if plan == [] then map[] else Mentioned(Spellings(plan[..|plan| - 1]), plan[|plan| - 1])
  }

  /** One of the plan's endpoints is spelled so. */
  ghost predicate Spells(plan: seq<Action>, path: PathName) {
    exists i :: 0 <= i < |plan| && (plan[i].Input() == Some(path) || plan[i].Output() == Some(path))
  }

  lemma {:induction false} SpellingsTouched(plan: seq<Action>)
    ensures forall k | k in Spellings(plan) :: Spellings(plan)[k].key == k && Spells(plan, Spellings(plan)[k])
    ensures forall i, k: nat | 0 <= i < |plan| && (plan[i].Consumes(k) || plan[i].Produces(k)) :: k in Spellings(plan)
    decreases |plan|
  {
    hide Mentioned, Spells;
    if plan != [] {
      var most, last := plan[..|plan| - 1], plan[|plan| - 1];
      SpellingsTouched(most);
      MentionedKeys(Spellings(most), last);
      forall k | k in Spellings(plan)
        ensures Spellings(plan)[k].key == k && Spells(plan, Spellings(plan)[k])
      {
        SpellsMore(plan, Spellings(plan)[k]);
      }
      forall i, k: nat | 0 <= i < |plan| && (plan[i].Consumes(k) || plan[i].Produces(k))
        ensures k in Spellings(plan)
      {
        assert i < |most| ==> plan[i] == most[i];
      }
    }
  }

  lemma MentionedKeys(before: map<nat, PathName>, last: Action)
    ensures var after := Mentioned(before, last);
            && (forall k: nat | k in before || last.Consumes(k) || last.Produces(k) :: k in after)
            && (forall k | k in after ::
                  if k in before then after[k] == before[k]
                  else after[k].key == k && (last.Input() == Some(after[k]) || last.Output() == Some(after[k])))
  {
  }

  lemma SpellsMore(plan: seq<Action>, path: PathName)
    requires plan != []
    requires Spells(plan[..|plan| - 1], path)
             || plan[|plan| - 1].Input() == Some(path) || plan[|plan| - 1].Output() == Some(path)
    ensures Spells(plan, path)
  {
    var most := plan[..|plan| - 1];
    if Spells(most, path) {
      var i :| 0 <= i < |most| && (most[i].Input() == Some(path) || most[i].Output() == Some(path));
      assert plan[i] == most[i];
    }
  }

  /** The transition's input is what the plan's reader of the path expects. */
  ghost predicate PlansInput(plan: seq<Action>, k: nat, before: PlannedInput) {
    match before
    case InputAbsent => forall i | 0 <= i < |plan| :: !plan[i].Consumes(k)
    case InputPresent(i, sha256, role) =>
      && i < |plan| && plan[i].Consumes(k) && !plan[i].CreateFile? && sha256 == plan[i].sha256
      && match plan[i] {
           case ModifyFile(_, _, _) => role == ModifyRole
           case DeleteFile(_, _) => role == DeleteRole
           case RenameFile(_, to, _, _) => role == RenameSource(to)
           case CreateFile(_, _, _) => false
         }
  }

  /** The transition's output is what the plan's writer of the path makes. */
  ghost predicate PlansOutput(plan: seq<Action>, k: nat, after: PlannedOutput) {
    match after
    case OutputAbsent => forall i | 0 <= i < |plan| :: !plan[i].Produces(k)
    case OutputModify(i, edits) =>
      i < |plan| && plan[i].Produces(k) && plan[i].ModifyFile? && edits == plan[i].edits
    case OutputCreate(i, contents, permissions) =>
      i < |plan| && plan[i].Produces(k) && plan[i].CreateFile?
      && contents == plan[i].contents && permissions == plan[i].permissions
    case OutputRename(i, source, sha256, edits) =>
      i < |plan| && plan[i].Produces(k) && plan[i].RenameFile?
      && source == plan[i].from && sha256 == plan[i].sha256 && edits == plan[i].edits
  }

  /** One transition per touched path, in ascending key order. */
  ghost predicate CompilesTo(plan: seq<Action>, transitions: seq<PathTransition>) {
    && (forall i, j | 0 <= i < j < |transitions| :: transitions[i].path.key < transitions[j].path.key)
    && (forall i | 0 <= i < |transitions| ::
          var k := transitions[i].path.key;
          && k in Spellings(plan) && transitions[i].path == Spellings(plan)[k]
          && PlansInput(plan, k, transitions[i].before) && PlansOutput(plan, k, transitions[i].after))
    && (forall k | k in Spellings(plan) :: exists i :: 0 <= i < |transitions| && transitions[i].path.key == k)
  }

  // The compiler

  datatype Endpoint = Endpoint(index: nat, action: Action)

  /** The endpoints of the first `n` actions. */
  ghost predicate Reads(plan: seq<Action>, n: nat, inputs: map<nat, Endpoint>)
    requires n <= |plan|
  {
    && (forall k | k in inputs :: inputs[k].index < n && inputs[k].action == plan[inputs[k].index] && inputs[k].action.Consumes(k))
    && (forall i, k: nat | 0 <= i < n && plan[i].Consumes(k) :: k in inputs && inputs[k].index == i)
  }

  ghost predicate Writes(plan: seq<Action>, n: nat, outputs: map<nat, Endpoint>)
    requires n <= |plan|
  {
    && (forall k | k in outputs :: outputs[k].index < n && outputs[k].action == plan[outputs[k].index] && outputs[k].action.Produces(k))
    && (forall i, k: nat | 0 <= i < n && plan[i].Produces(k) :: k in outputs && outputs[k].index == i)
  }

  class Compiler {
    ghost const plan: seq<Action>
    var paths: map<nat, PathName>
    var inputs: map<nat, Endpoint>
    var outputs: map<nat, Endpoint>

    ghost predicate Registered(n: nat)
      reads this
    {
      && n <= |plan| && paths == Spellings(plan[..n])
      && Reads(plan, n, inputs) && Writes(plan, n, outputs)
    }

    constructor (ghost plan: seq<Action>)
      ensures this.plan == plan && Registered(0)
    {
      this.plan := plan;
      paths, inputs, outputs := map[], map[], map[];
    }

    method RegisterPath(path: PathName) returns (key: nat)
      modifies `paths
      ensures key == path.key && paths == Mention(old(paths), path)
    {
      key := path.key;
      if key !in paths {
        paths := paths[key := path];
      }
    }

    method InsertInput(key: nat, endpoint: Endpoint) returns (ok: bool)
      modifies `inputs
      ensures ok == (key !in old(inputs)) && inputs == old(inputs)[key := endpoint]
    {
      ok := key !in inputs;
      inputs := inputs[key := endpoint];
    }

    method InsertOutput(key: nat, endpoint: Endpoint) returns (ok: bool)
      modifies `outputs
      ensures ok == (key !in old(outputs)) && outputs == old(outputs)[key := endpoint]
    {
      ok := key !in outputs;
      outputs := outputs[key := endpoint];
    }

    /** `register`: fails only when the plan reads or writes a path twice. */
    method Register(index: nat, action: Action) returns (ok: bool)
      requires Registered(index) && index < |plan| && plan[index] == action
      modifies this
      ensures ok ==> Registered(index + 1)
      ensures !ok ==> !Compilable(plan)
    {
      hide Spellings, Compilable, Reads, Writes;
      SpellingsNext(plan, index);
      ReadsNext(plan, index, inputs);
      WritesNext(plan, index, outputs);
      match action {
        case ModifyFile(path, _, _) =>
          var key := RegisterPath(path);
          ok := InsertInput(key, Endpoint(index, action));
          if ok { ok := InsertOutput(key, Endpoint(index, action)); }
        case CreateFile(path, _, _) =>
          var key := RegisterPath(path);
          ok := InsertOutput(key, Endpoint(index, action));
        case DeleteFile(path, _) =>
          var key := RegisterPath(path);
          ok := InsertInput(key, Endpoint(index, action));
        case RenameFile(from, to, _, _) =>
          var fromKey := RegisterPath(from);
          var toKey := RegisterPath(to);
          ok := InsertInput(fromKey, Endpoint(index, action));
          if ok { ok := InsertOutput(toKey, Endpoint(index, action)); }
      }
    }

    /** `validate_cross_roles` */
    method ValidateCrossRoles() returns (ok: bool)
      requires Registered(|plan|)
      ensures ok <==> Compilable(plan)
    {
      hide Spellings, Compilable;
      DistinctRoles(plan, inputs, outputs);
      var keys := inputs.Keys;
      while keys != {}
        invariant keys <= inputs.Keys
        invariant forall k | k in inputs && k !in keys && k in outputs :: RolesAllowed(plan, inputs[k].index, outputs[k].index)
        decreases |keys|
      {
        var key :| key in keys;
        keys := keys - {key};
        if key in outputs {
          var input, output := inputs[key], outputs[key];
          var allowed :=
            match (input.action, output.action)
            case (ModifyFile(_, _, _), ModifyFile(_, _, _)) => input.index == output.index
            case (RenameFile(_, _, _, _), RenameFile(_, _, _, _)) => true
            case _ => false;
          if !allowed {
            return false;
          }
        }
      }
      ok := true;
    }

    function PlanInput(key: nat): PlannedInput
      reads this
    {
      if key !in inputs then InputAbsent
      else
        match inputs[key].action
        case ModifyFile(_, sha256, _) => InputPresent(inputs[key].index, sha256, ModifyRole)
        case DeleteFile(_, sha256) => InputPresent(inputs[key].index, sha256, DeleteRole)
        case RenameFile(_, to, sha256, _) => InputPresent(inputs[key].index, sha256, RenameSource(to))
        case CreateFile(_, _, _) => InputAbsent
    }

    function PlanOutput(key: nat): PlannedOutput
      reads this
    {
      if key !in outputs then OutputAbsent
      else
        match outputs[key].action
        case ModifyFile(_, _, edits) => OutputModify(outputs[key].index, edits)
        case CreateFile(_, contents, permissions) => OutputCreate(outputs[key].index, contents, permissions)
        case RenameFile(from, _, sha256, edits) => OutputRename(outputs[key].index, from, sha256, edits)
        case DeleteFile(_, _) => OutputAbsent
    }

    /** `build_transitions`: the registered paths in ascending key order. */
    method BuildTransitions() returns (transitions: seq<PathTransition>)
      requires Registered(|plan|)
      ensures CompilesTo(plan, transitions)
    {
      hide Spellings, Reads, Writes, PlansInput, PlansOutput;
      assert plan[..|plan|] == plan;
      SpellingsTouched(plan);
      var keys := Sorted(paths.Keys);
      transitions := seq(|keys|, i requires 0 <= i < |keys| && keys[i] in paths reads this =>
                                   PathTransition(paths[keys[i]], PlanInput(keys[i]), PlanOutput(keys[i])));
      forall i | 0 <= i < |keys|
        ensures PlansInput(plan, keys[i], PlanInput(keys[i])) && PlansOutput(plan, keys[i], PlanOutput(keys[i]))
      {
        Planned(keys[i]);
      }
      forall k | k in Spellings(plan)
        ensures exists i :: 0 <= i < |transitions| && transitions[i].path.key == k
      {
        var i :| 0 <= i < |keys| && keys[i] == k;
        assert transitions[i].path.key == k;
      }
    }

    lemma Planned(k: nat)
      requires Registered(|plan|)
      ensures PlansInput(plan, k, PlanInput(k)) && PlansOutput(plan, k, PlanOutput(k))
    {
      hide Spellings;
    }
  }

  /** The keys of an ordered set, in ascending order. */
  method Sorted(keys: set<nat>) returns (sorted: seq<nat>)
    ensures forall i, j | 0 <= i < j < |sorted| :: sorted[i] < sorted[j]
    ensures forall k :: k in keys <==> k in sorted
  {
    sorted := [];
    var rest := keys;
    while rest != {}
      invariant rest <= keys && forall i, j | 0 <= i < j < |sorted| :: sorted[i] < sorted[j]
      invariant forall i, k | 0 <= i < |sorted| && k in rest :: sorted[i] < k
      invariant forall k :: k in keys <==> k in rest || k in sorted
      decreases |rest|
    {
      var least := Least(rest);
      rest := rest - {least};
      sorted := sorted + [least];
    }
  }

  method Least(keys: set<nat>) returns (least: nat)
    requires keys != {}
    ensures least in keys && forall k | k in keys :: least <= k
  {
    least :| least in keys;
    var rest := keys - {least};
    while rest != {}
      invariant rest <= keys && least in keys && forall k | k in keys && k !in rest :: least <= k
      decreases |rest|
    {
      var k :| k in rest;
      rest := rest - {k};
      if k < least { least := k; }
    }
  }

  lemma SpellingsNext(plan: seq<Action>, n: nat)
    requires n < |plan|
    ensures Spellings(plan[..n + 1]) == Mentioned(Spellings(plan[..n]), plan[n])
  {
    assert plan[..n + 1][..n] == plan[..n];
  }

  /** One more reader: a path read before makes the plan uncompilable. */
  lemma ReadsNext(plan: seq<Action>, n: nat, inputs: map<nat, Endpoint>)
    requires n < |plan| && Reads(plan, n, inputs)
    ensures match plan[n].Input()
            case None => Reads(plan, n + 1, inputs)
            case Some(path) =>
              if path.key in inputs then !Compilable(plan)
              else Reads(plan, n + 1, inputs[path.key := Endpoint(n, plan[n])])
  {
    match plan[n].Input()
    case None =>
    case Some(path) =>
      if path.key in inputs {
        assert plan[inputs[path.key].index].Consumes(path.key) && plan[n].Consumes(path.key);
      }
  }

  lemma WritesNext(plan: seq<Action>, n: nat, outputs: map<nat, Endpoint>)
    requires n < |plan| && Writes(plan, n, outputs)
    ensures match plan[n].Output()
            case None => Writes(plan, n + 1, outputs)
            case Some(path) =>
              if path.key in outputs then !Compilable(plan)
              else Writes(plan, n + 1, outputs[path.key := Endpoint(n, plan[n])])
  {
    match plan[n].Output()
    case None =>
    case Some(path) =>
      if path.key in outputs {
        assert plan[outputs[path.key].index].Produces(path.key) && plan[n].Produces(path.key);
      }
  }

  lemma DistinctRoles(plan: seq<Action>, inputs: map<nat, Endpoint>, outputs: map<nat, Endpoint>)
    requires Reads(plan, |plan|, inputs) && Writes(plan, |plan|, outputs)
    ensures Compilable(plan) <==>
            forall k | k in inputs && k in outputs :: RolesAllowed(plan, inputs[k].index, outputs[k].index)
  {
    if Compilable(plan) {
      forall k | k in inputs && k in outputs
        ensures RolesAllowed(plan, inputs[k].index, outputs[k].index)
      {
        assert plan[inputs[k].index].Consumes(k) && plan[outputs[k].index].Produces(k);
      }
    }
    if forall k | k in inputs && k in outputs :: RolesAllowed(plan, inputs[k].index, outputs[k].index) {
      forall i, j, k: nat | 0 <= i < |plan| && 0 <= j < |plan| && plan[i].Consumes(k) && plan[j].Produces(k)
        ensures RolesAllowed(plan, i, j)
      {
        assert inputs[k].index == i && outputs[k].index == j;
      }
      forall i, j, k: nat | 0 <= i < j < |plan| && plan[i].Consumes(k)
        ensures !plan[j].Consumes(k)
      {
        assert inputs[k].index == i;
      }
      forall i, j, k: nat | 0 <= i < j < |plan| && plan[i].Produces(k)
        ensures !plan[j].Produces(k)
      {
        assert outputs[k].index == i;
      }
    }
  }

  /** `compile_plan` */
  method CompilePlan(plan: seq<Action>) returns (result: Result<seq<PathTransition>>)
    ensures result.Ok? <==> Compilable(plan)
    ensures result.Ok? ==> CompilesTo(plan, result.value)
    ensures (forall i | 0 <= i < |plan| :: plan[i].RenameFile?)
            && (forall i, j | 0 <= i < j < |plan| :: plan[i].from.key != plan[j].from.key && plan[i].to.key != plan[j].to.key)
            ==> result.Ok?
  {
    if (forall i | 0 <= i < |plan| :: plan[i].RenameFile?)
       && (forall i, j | 0 <= i < j < |plan| :: plan[i].from.key != plan[j].from.key && plan[i].to.key != plan[j].to.key) {
      RenamesCompile(plan);
    }
    var compiler := new Compiler(plan);
    for i := 0 to |plan|
      invariant fresh(compiler) && compiler.plan == plan && compiler.Registered(i)
    {
      var ok := compiler.Register(i, plan[i]);
      if !ok { return Corrupt; }
    }
    var ok := compiler.ValidateCrossRoles();
    if !ok { return Corrupt; }
    var transitions := compiler.BuildTransitions();
    result := Ok(transitions);
  }
}
