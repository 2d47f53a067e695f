/** A connector action in the editor's Ballerina AST (ast/connector-action.js): a node
    with a name and annotations whose ordered children hold its arguments, at most one
    return-type node (itself holding arguments), connector and variable declarations,
    workers and statements. Edits insert into or remove from these child lists in place. */
module ConnectorActions {
  import opened Wrappers

  /** An argument node: its model id, its type and its identifier (either may be undefined). */
  datatype Argument = Argument(id: string, argType: Option<string>, identifier: Option<string>)

  /** The children a connector action can hold. */
  datatype Node =
    | ArgumentNode(arg: Argument)
    | ReturnTypeNode(modelId: string, returnArgs: seq<Argument>)
    | VariableDeclarationNode(declId: string)
    | ConnectorDeclarationNode(declId: string)
    | WorkerDeclarationNode(declId: string)
    | StatementNode(stmtId: string)

  datatype Kind = ArgumentKind | ReturnTypeKind | VariableDeclarationKind | ConnectorDeclarationKind | WorkerKind | StatementKind

  function KindOf(n: Node): Kind {
    match n
    case ArgumentNode(_) => ArgumentKind
    case ReturnTypeNode(_, _) => ReturnTypeKind
    case VariableDeclarationNode(_) => VariableDeclarationKind
    case ConnectorDeclarationNode(_) => ConnectorDeclarationKind
    case WorkerDeclarationNode(_) => WorkerKind
    case StatementNode(_) => StatementKind
  }

  /** canBeParentOf: the kinds of child the action accepts from the diagram. */
  predicate CanBeParentOf(n: Node) {
    KindOf(n) in {ConnectorDeclarationKind, VariableDeclarationKind, WorkerKind, StatementKind}
  }

  /** The errors an edit throws; the last one is the TypeError of reading the children
      of an undefined return-type model. */
  datatype ActionError =
    | DuplicateIdentifier(identifier: string)
    | UnnamedReturnTypesExist
    | NamedReturnTypesExist
    | ReturnTypeNotFound(modelId: string)
    | NoReturnTypeModel
  {
    function Message(): string {
      match this
      case DuplicateIdentifier(i) => "An argument with identifier '" + i + "' already exists."
      case UnnamedReturnTypesExist =>
        "Return types without identifiers already exists. Remove them to add return types with identifiers."
      case NamedReturnTypesExist =>
        "Return types with identifiers already exists. Remove them to add return types without identifiers."
      case ReturnTypeNotFound(id) => "Could not find a return type with ID: " + id
      case NoReturnTypeModel => "TypeError"
    }
  }

  // ---------------------------------------------------------------------------
  // The child list.

  /** The children of one kind, in order. */
  function OfKind(s: seq<Node>, k: Kind): (r: seq<Node>)
    ensures |r| <= |s|
    ensures forall i | 0 <= i < |r| :: KindOf(r[i]) == k
  {
    if s == [] then []
    else (if KindOf(s[0]) == k then [s[0]] else []) + OfKind(s[1..], k)
  }

  lemma {:induction false} OfKindAppend(a: seq<Node>, b: seq<Node>, k: Kind)
    ensures OfKind(a + b, k) == OfKind(a, k) + OfKind(b, k)
  {
    if a != [] {
      OfKindAppend(a[1..], b, k);
      var head := if KindOf(a[0]) == k then [a[0]] else [];
      assert (a + b)[0] == a[0];
      assert (a + b)[1..] == a[1..] + b;
      assert OfKind(a + b, k) == head + OfKind(a[1..] + b, k);
      assert OfKind(a, k) == head + OfKind(a[1..], k);
    } else {
      assert a + b == b;
    }
  }

  /** getArguments: the argument children, in order. */
  function Arguments(s: seq<Node>): (r: seq<Argument>)
    ensures |r| == |OfKind(s, ArgumentKind)|
    ensures forall i | 0 <= i < |r| :: OfKind(s, ArgumentKind)[i] == ArgumentNode(r[i])
  {
    var nodes := OfKind(s, ArgumentKind);
    seq(|nodes|, i requires 0 <= i < |nodes| => nodes[i].arg)
  }

  /** getVariableDeclarations: the variable declarations, in order. */
  function VariableDeclarations(s: seq<Node>): seq<Node> {
    OfKind(s, VariableDeclarationKind)
  }

  /** `_.findLastIndex`: the position of the last child of the kind, or -1. */
  function FindLastIndex(s: seq<Node>, k: Kind): (r: int)
    ensures -1 <= r < |s|
    ensures r >= 0 ==> KindOf(s[r]) == k
    ensures forall j | r < j < |s| :: KindOf(s[j]) != k
  {
    if s == [] then -1
    else if KindOf(s[|s| - 1]) == k then |s| - 1
    else FindLastIndex(s[..|s| - 1], k)
  }

  /** `addChild(node, index)`: the node inserted before position `index`. */
  function Insert(s: seq<Node>, i: nat, n: Node): (r: seq<Node>)
    requires i <= |s|
    ensures |r| == |s| + 1 && r[i] == n
  {
    s[..i] + ([n] + s[i..])
  }

  /** Inserting a node leaves the children of every other kind as they were, and puts
      it among those of its own kind after the ones that precede the insertion point. */
  lemma {:induction false} InsertOfKind(s: seq<Node>, i: nat, n: Node, k: Kind)
    requires i <= |s|
    ensures OfKind(Insert(s, i, n), k) ==
      OfKind(s[..i], k) + (if KindOf(n) == k then [n] else []) + OfKind(s[i..], k)
  {
    assert s == s[..i] + s[i..];
    OfKindAppend(s[..i], [n] + s[i..], k);
    OfKindAppend([n], s[i..], k);
    assert Insert(s, i, n) == s[..i] + ([n] + s[i..]);
  }

  /** No child of the kind after the position: the kind's children all come before it. */
  lemma {:induction false} NoneAfter(s: seq<Node>, i: nat, k: Kind)
    requires i <= |s|
    requires forall j | i <= j < |s| :: KindOf(s[j]) != k
    ensures OfKind(s[i..], k) == []
    decreases |s| - i
  {
    if i < |s| {
      NoneAfter(s, i + 1, k);
      assert s[i..][1..] == s[i + 1..];
    }
  }

  /** The position addVariableDeclaration inserts at: after the last variable
      declaration, else after the last connector declaration, else at the front. */
  function VariableDeclarationSlot(s: seq<Node>): (r: nat)
    ensures r <= |s|
  {
    var last := FindLastIndex(s, VariableDeclarationKind);
    (if last == -1 then FindLastIndex(s, ConnectorDeclarationKind) else last) + 1
  }

  /** A new variable declaration becomes the last declaration, every other kind of
      child keeps its order, and when there was no declaration it comes after every
      connector declaration. */
  lemma {:induction false} AddVariableDeclarationPlacement(s: seq<Node>, v: Node, k: Kind)
    requires KindOf(v) == VariableDeclarationKind
    ensures VariableDeclarations(Insert(s, VariableDeclarationSlot(s), v)) == VariableDeclarations(s) + [v]
    ensures k != VariableDeclarationKind ==> OfKind(Insert(s, VariableDeclarationSlot(s), v), k) == OfKind(s, k)
    ensures VariableDeclarations(s) == [] ==>
      forall j | VariableDeclarationSlot(s) < j < |s| + 1 ::
        KindOf(Insert(s, VariableDeclarationSlot(s), v)[j]) != ConnectorDeclarationKind
  {
    var i := VariableDeclarationSlot(s);
    var last := FindLastIndex(s, VariableDeclarationKind);
    assert forall j | i <= j < |s| :: KindOf(s[j]) != VariableDeclarationKind by {
      if last == -1 {
        assert forall j | -1 < j < |s| :: KindOf(s[j]) != VariableDeclarationKind;
      }
    }
    InsertAfterLast(s, i, v, k);
    if VariableDeclarations(s) == [] {
      NoVariableDeclarations(s);
      var r := Insert(s, i, v);
      forall j | i < j < |s| + 1
        ensures KindOf(r[j]) != ConnectorDeclarationKind
      {
        assert r[j] == s[j - 1];
      }
    }
  }

  lemma {:induction false} NoVariableDeclarations(s: seq<Node>)
    requires OfKind(s, VariableDeclarationKind) == []
    ensures FindLastIndex(s, VariableDeclarationKind) == -1
  {
    var last := FindLastIndex(s, VariableDeclarationKind);
    if last >= 0 {
      assert s == s[..last] + [s[last]] + s[last + 1..];
      OfKindAppend(s[..last] + [s[last]], s[last + 1..], VariableDeclarationKind);
      OfKindAppend(s[..last], [s[last]], VariableDeclarationKind);
    }
  }

  /** addArgument's position: just after the last argument, or the front. */
  function ArgumentSlot(s: seq<Node>): (r: nat)
    ensures r <= |s|
  {
    FindLastIndex(s, ArgumentKind) + 1
  }

  /** A new argument is the last argument, and no other child moves relative to its kind. */
  lemma {:induction false} AddArgumentPlacement(s: seq<Node>, a: Argument, k: Kind)
    ensures Arguments(Insert(s, ArgumentSlot(s), ArgumentNode(a))) == Arguments(s) + [a]
    ensures k != ArgumentKind ==> OfKind(Insert(s, ArgumentSlot(s), ArgumentNode(a)), k) == OfKind(s, k)
  {
    var i := ArgumentSlot(s);
    InsertAfterLast(s, i, ArgumentNode(a), k);
    var r := Insert(s, i, ArgumentNode(a));
    assert OfKind(r, ArgumentKind) == OfKind(s, ArgumentKind) + [ArgumentNode(a)];
    assert |Arguments(r)| == |Arguments(s)| + 1;
    forall j | 0 <= j < |Arguments(r)|
      ensures Arguments(r)[j] == (Arguments(s) + [a])[j]
    {
      assert OfKind(r, ArgumentKind)[j] == ArgumentNode(Arguments(r)[j]);
    }
  }

  /** Inserting where no child of the node's own kind follows (just after the last
      one, say): that kind's list gets the node at its end, every other kind's list
      stays as it was. */
  lemma {:induction false} InsertAfterLast(s: seq<Node>, i: nat, n: Node, k: Kind)
    requires i <= |s|
    requires forall j | i <= j < |s| :: KindOf(s[j]) != KindOf(n)
    ensures OfKind(Insert(s, i, n), KindOf(n)) == OfKind(s, KindOf(n)) + [n]
    ensures k != KindOf(n) ==> OfKind(Insert(s, i, n), k) == OfKind(s, k)
  {
    var front, back := s[..i], s[i..];
    assert front + back == s;
    InsertOfKind(s, i, n, KindOf(n));
    OfKindAppend(front, back, KindOf(n));
    NoneAfter(s, i, KindOf(n));
    if k != KindOf(n) {
      InsertOfKind(s, i, n, k);
      OfKindAppend(front, back, k);
    }
  }

  /** Whether a child is an argument with the identifier (`===`, so undefined matches undefined). */
  predicate IsArgumentNamed(n: Node, identifier: Option<string>) {
    n.ArgumentNode? && n.arg.identifier == identifier
  }

  /** `_.remove` of every argument child with the identifier. */
  function RemoveArguments(s: seq<Node>, identifier: Option<string>): (r: seq<Node>)
    ensures |r| <= |s|
    ensures forall j | 0 <= j < |r| :: !IsArgumentNamed(r[j], identifier)
  {
    if s == [] then []
    else (if IsArgumentNamed(s[0], identifier) then [] else [s[0]]) + RemoveArguments(s[1..], identifier)
  }

  /** Removal keeps every child that is not such an argument: all other kinds keep
      their lists exactly. */
  lemma {:induction false} RemoveArgumentsKeepsOthers(s: seq<Node>, identifier: Option<string>, k: Kind)
    requires k != ArgumentKind
    ensures OfKind(RemoveArguments(s, identifier), k) == OfKind(s, k)
  {
    if s != [] {
      RemoveArgumentsKeepsOthers(s[1..], identifier, k);
      var head := if IsArgumentNamed(s[0], identifier) then [] else [s[0]];
      OfKindAppend(head, RemoveArguments(s[1..], identifier), k);
    }
  }

  /** Removing an identifier right after adding an argument with an unused identifier
      gives back the children as they were. */
  lemma {:induction false} RemoveUndoesAdd(s: seq<Node>, a: Argument)
    requires forall j | 0 <= j < |s| :: !IsArgumentNamed(s[j], a.identifier)
    ensures RemoveArguments(Insert(s, ArgumentSlot(s), ArgumentNode(a)), a.identifier) == s
  {
    RemoveUndoesInsert(s, ArgumentSlot(s), a);
  }

  lemma {:induction false} RemoveUndoesInsert(s: seq<Node>, i: nat, a: Argument)
    requires i <= |s|
    requires forall j | 0 <= j < |s| :: !IsArgumentNamed(s[j], a.identifier)
    ensures RemoveArguments(Insert(s, i, ArgumentNode(a)), a.identifier) == s
  {
    var front, back := s[..i], s[i..];
    var node := ArgumentNode(a);
    var id := a.identifier;
    NoMatchSlices(s, i, id);
    assert RemoveArguments([node], id) == [];
    RemoveAppend([node], back, id);
    var tail := [node] + back;
    assert [] + back == back;
    assert RemoveArguments(tail, id) == back;
    RemoveAppend(front, tail, id);
    assert RemoveArguments(front + tail, id) == front + back;
    assert front + back == s;
    assert Insert(s, i, node) == front + tail;
  }

  lemma {:induction false} NoMatchSlices(s: seq<Node>, i: nat, identifier: Option<string>)
    requires i <= |s|
    requires forall j | 0 <= j < |s| :: !IsArgumentNamed(s[j], identifier)
    ensures RemoveArguments(s[..i], identifier) == s[..i]
    ensures RemoveArguments(s[i..], identifier) == s[i..]
  {
    RemoveNoMatch(s[..i], identifier);
    RemoveNoMatch(s[i..], identifier);
  }

  lemma {:induction false} RemoveNoMatch(s: seq<Node>, identifier: Option<string>)
    requires forall j | 0 <= j < |s| :: !IsArgumentNamed(s[j], identifier)
    ensures RemoveArguments(s, identifier) == s
  {
    if s != [] {
      RemoveNoMatch(s[1..], identifier);
    }
  }

  lemma {:induction false} RemoveAppend(a: seq<Node>, b: seq<Node>, identifier: Option<string>)
    ensures RemoveArguments(a + b, identifier) == RemoveArguments(a, identifier) + RemoveArguments(b, identifier)
  {
    if a == [] {
      assert a + b == b;
    } else {
      var head := if IsArgumentNamed(a[0], identifier) then [] else [a[0]];
      calc {
        RemoveArguments(a + b, identifier);
        == { assert (a + b)[0] == a[0]; assert (a + b)[1..] == a[1..] + b; }
        head + RemoveArguments(a[1..] + b, identifier);
        == { RemoveAppend(a[1..], b, identifier); }
        head + (RemoveArguments(a[1..], identifier) + RemoveArguments(b, identifier));
        ==
        RemoveArguments(a, identifier) + RemoveArguments(b, identifier);
      }
    }
  }


  // ---------------------------------------------------------------------------
  // Return types.

  /** getReturnTypeModel: the position of the first return-type child, if any. */
  function ReturnTypeIndex(s: seq<Node>): (r: Option<nat>)
    ensures r.Some? ==> (r.value < |s| && s[r.value].ReturnTypeNode?
                         && forall j | 0 <= j < r.value :: !s[j].ReturnTypeNode?)
    ensures r.None? ==> forall j | 0 <= j < |s| :: !s[j].ReturnTypeNode?
  {
    if s == [] then None
    else if s[0].ReturnTypeNode? then Some(0)
    else
      var rest := ReturnTypeIndex(s[1..]);
      if rest.Some? then Some(rest.value + 1) else None
  }

  /** getReturnTypes: the model's arguments, or none without a model. */
  function ReturnTypes(s: seq<Node>): seq<Argument> {
    var i := ReturnTypeIndex(s);
    if i.Some? then s[i.value].returnArgs else []
  }

  /** The first rule a new return type breaks: a duplicate identifier, then mixing
      named with unnamed return types. */
  function AddReturnTypeError(existing: seq<Argument>, identifier: Option<string>): Option<ActionError> {
    if identifier.Some? && exists j | 0 <= j < |existing| :: existing[j].identifier == identifier
    then Some(DuplicateIdentifier(identifier.value))
    else if identifier.Some? && exists j | 0 <= j < |existing| :: existing[j].identifier.None?
    then Some(UnnamedReturnTypesExist)
    else if identifier.None? && exists j | 0 <= j < |existing| :: existing[j].identifier.Some?
    then Some(NamedReturnTypesExist)
    else None
  }

  /** Return types are all named or all unnamed, and no two share an identifier. */
  predicate ReturnTypesConsistent(args: seq<Argument>) {
    && ((forall j | 0 <= j < |args| :: args[j].identifier.Some?)
        || (forall j | 0 <= j < |args| :: args[j].identifier.None?))
    && (forall i, j | 0 <= i < j < |args| && args[i].identifier.Some? :: args[i].identifier != args[j].identifier)
  }

  /** The children with the return-type model in place: the existing one, or a new
      empty model added at the end. */
  function WithReturnTypeModel(s: seq<Node>, newModelId: string): (r: seq<Node>)
    ensures ReturnTypeIndex(r).Some?
    ensures ReturnTypes(r) == ReturnTypes(s)
  {
    if ReturnTypeIndex(s).Some? then s
    else
      var r := s + [ReturnTypeNode(newModelId, [])];
      assert ReturnTypeIndex(r) == Some(|s|) by { ReturnTypeIndexAt(r, |s|); }
      r
  }

  lemma {:induction false} ReturnTypeIndexAt(s: seq<Node>, i: nat)
    requires i < |s| && s[i].ReturnTypeNode? && forall j | 0 <= j < i :: !s[j].ReturnTypeNode?
    ensures ReturnTypeIndex(s) == Some(i)
  {
    if i > 0 {
      ReturnTypeIndexAt(s[1..], i - 1);
    }
  }

  /** addReturnType: the children afterwards, or the error thrown. */
  function AddReturnTypeSpec(s: seq<Node>, argType: string, identifier: Option<string>, newId: string, newModelId: string)
    : Result<seq<Node>, ActionError>
  {
    var withModel := WithReturnTypeModel(s, newModelId);
    var i := ReturnTypeIndex(withModel).value;
    var model := withModel[i];
    var error := AddReturnTypeError(model.returnArgs, identifier);
    if error.Some? then Failure(error.value)
    else Success(withModel[i := model.(returnArgs := model.returnArgs + [Argument(newId, Some(argType), identifier)])])
  }

  /** addReturnType succeeds exactly when the rules allow the new return type, appends
      it after the existing ones, and keeps the return types consistent; it can only
      fail when a return-type model was already there, since a new model is empty. */
  lemma {:induction false} AddReturnTypeRules(s: seq<Node>, argType: string, identifier: Option<string>,
                                              newId: string, newModelId: string)
    ensures AddReturnTypeSpec(s, argType, identifier, newId, newModelId).Failure? <==>
      AddReturnTypeError(ReturnTypes(s), identifier).Some?
    ensures AddReturnTypeSpec(s, argType, identifier, newId, newModelId).Failure? ==> ReturnTypeIndex(s).Some?
    ensures AddReturnTypeSpec(s, argType, identifier, newId, newModelId).Success? ==>
      ReturnTypes(AddReturnTypeSpec(s, argType, identifier, newId, newModelId).value)
      == ReturnTypes(s) + [Argument(newId, Some(argType), identifier)]
    ensures AddReturnTypeSpec(s, argType, identifier, newId, newModelId).Success? && ReturnTypesConsistent(ReturnTypes(s)) ==>
      ReturnTypesConsistent(ReturnTypes(AddReturnTypeSpec(s, argType, identifier, newId, newModelId).value))
  {
    var withModel := WithReturnTypeModel(s, newModelId);
    var i := ReturnTypeIndex(withModel).value;
    var r := AddReturnTypeSpec(s, argType, identifier, newId, newModelId);
    if r.Success? {
      var model := withModel[i];
      var after := withModel[i := model.(returnArgs := model.returnArgs + [Argument(newId, Some(argType), identifier)])];
      ReturnTypeIndexAt(after, i);
    }
  }

  /** The first return type with the model id, if any. */
  function FindReturnType(args: seq<Argument>, modelId: string): (r: Option<nat>)
    ensures r.Some? ==> (r.value < |args| && args[r.value].id == modelId
                         && forall j | 0 <= j < r.value :: args[j].id != modelId)
    ensures r.None? ==> forall j | 0 <= j < |args| :: args[j].id != modelId
  {
    if args == [] then None
    else if args[0].id == modelId then Some(0)
    else
      var rest := FindReturnType(args[1..], modelId);
      if rest.Some? then Some(rest.value + 1) else None
  }

  /** removeReturnType: the children afterwards, or the error thrown. */
  function RemoveReturnTypeSpec(s: seq<Node>, modelId: string): Result<seq<Node>, ActionError> {
    var i := ReturnTypeIndex(s);
    if i.None? then Failure(NoReturnTypeModel)
    else
      var args := s[i.value].returnArgs;
      var found := FindReturnType(args, modelId);
      if found.None? then Failure(ReturnTypeNotFound(modelId))
      else Success(s[i.value := s[i.value].(returnArgs := args[..found.value] + args[found.value + 1..])])
  }

  /** removeReturnType removes exactly the first return type with the id, and fails
      when there is none. */
  lemma {:induction false} RemoveReturnTypeRules(s: seq<Node>, modelId: string)
    ensures RemoveReturnTypeSpec(s, modelId).Failure? <==> FindReturnType(ReturnTypes(s), modelId).None?
    ensures RemoveReturnTypeSpec(s, modelId).Success? ==>
      var k := FindReturnType(ReturnTypes(s), modelId).value;
      ReturnTypes(RemoveReturnTypeSpec(s, modelId).value) == ReturnTypes(s)[..k] + ReturnTypes(s)[k + 1..]
  {
    var i := ReturnTypeIndex(s);
    if i.Some? && RemoveReturnTypeSpec(s, modelId).Success? {
      ReturnTypeIndexAt(RemoveReturnTypeSpec(s, modelId).value, i.value);
    }
  }

  /** Removing the id of a return type just added, when no earlier one had that id,
      gives back the return types as they were. */
  lemma {:induction false} RemoveReturnTypeUndoesAdd(s: seq<Node>, argType: string, identifier: Option<string>,
                                                     newId: string, newModelId: string)
    requires forall j | 0 <= j < |ReturnTypes(s)| :: ReturnTypes(s)[j].id != newId
    requires AddReturnTypeSpec(s, argType, identifier, newId, newModelId).Success?
    ensures RemoveReturnTypeSpec(AddReturnTypeSpec(s, argType, identifier, newId, newModelId).value, newId).Success?
    ensures ReturnTypes(RemoveReturnTypeSpec(AddReturnTypeSpec(s, argType, identifier, newId, newModelId).value, newId).value)
      == ReturnTypes(s)
  {
    AddReturnTypeRules(s, argType, identifier, newId, newModelId);
    var added := AddReturnTypeSpec(s, argType, identifier, newId, newModelId).value;
    var args := ReturnTypes(added);
    assert args == ReturnTypes(s) + [Argument(newId, Some(argType), identifier)];
    assert FindReturnType(args, newId) == Some(|ReturnTypes(s)|) by {
      FindReturnTypeAt(args, newId, |ReturnTypes(s)|);
    }
    RemoveReturnTypeRules(added, newId);
    assert args[..|ReturnTypes(s)|] == ReturnTypes(s);
  }

  lemma {:induction false} FindReturnTypeAt(args: seq<Argument>, modelId: string, i: nat)
    requires i < |args| && args[i].id == modelId && forall j | 0 <= j < i :: args[j].id != modelId
    ensures FindReturnType(args, modelId) == Some(i)
  {
    if i > 0 {
      FindReturnTypeAt(args[1..], modelId, i - 1);
    }
  }

  // ---------------------------------------------------------------------------
  // Text.

  /** JavaScript string concatenation of a possibly undefined value. */
  function JsText(v: Option<string>): string {
    if v.Some? then v.value else "undefined"
  }

  /** One argument as "type identifier". */
  function ArgumentText(a: Argument): string {
    JsText(a.argType) + " " + JsText(a.identifier)
  }

  function ArgumentTexts(args: seq<Argument>): (r: seq<string>)
    ensures |r| == |args| && forall i | 0 <= i < |args| :: r[i] == ArgumentText(args[i])
  {
    if args == [] then [] else [ArgumentText(args[0])] + ArgumentTexts(args[1..])
  }

  /** `_.join(xs, sep)`: the strings with the separator between neighbours only. */
  function JoinWith(xs: seq<string>, sep: string): (r: string)
  {
    if xs == [] then ""
    else if |xs| == 1 then xs[0]
    else JoinWith(xs[..|xs| - 1], sep) + sep + xs[|xs| - 1]
  }

  /** The join has exactly one separator fewer than it has parts: its length is the
      parts' lengths plus (parts - 1) separators. */
  lemma {:induction false} JoinWithLength(xs: seq<string>, sep: string)
    requires xs != []
    ensures |JoinWith(xs, sep)| == TotalLength(xs) + (|xs| - 1) * |sep|
  {
    if |xs| > 1 {
      var init := xs[..|xs| - 1];
      JoinWithLength(init, sep);
      assert JoinWith(xs, sep) == JoinWith(init, sep) + sep + xs[|xs| - 1];
      assert TotalLength(xs) == TotalLength(init) + |xs[|xs| - 1]|;
      assert (|xs| - 1) * |sep| == (|init| - 1) * |sep| + |sep|;
    }
  }

  /** What the loop of getArgumentsAsString has written after the part it joined:
      a separator after every argument but the last. */
  function Separator(index: nat, count: nat): string {
    if 0 < index < count then ", " else ""
  }

  lemma {:induction false} JoinWithStep(xs: seq<string>, i: nat, sep: string)
    requires i < |xs|
    ensures JoinWith(xs[..i + 1], sep) == (if i == 0 then "" else JoinWith(xs[..i], sep) + sep) + xs[i]
  {
    assert xs[..i + 1][..i] == xs[..i];
  }

  /** One turn of getArgumentsAsString's loop: the text written so far, the next part
      and, unless it is the last, a separator make the join of one more part. */
  lemma {:induction false} JoinWithSeparatorStep(xs: seq<string>, i: nat, before: string, part: string, after: string)
    requires i < |xs| && part == xs[i]
    requires before == JoinWith(xs[..i], ", ") + Separator(i, |xs|)
    requires after == before + part + (if |xs| - 1 != i then ", " else "")
    ensures after == JoinWith(xs[..i + 1], ", ") + Separator(i + 1, |xs|)
  {
    JoinWithStep(xs, i, ", ");
  }

  function TotalLength(xs: seq<string>): nat {
    if xs == [] then 0 else TotalLength(xs[..|xs| - 1]) + |xs[|xs| - 1]|
  }

  // ---------------------------------------------------------------------------
  // Name and annotations.

  /** The scalar properties of an action: its name, the stray `connector_name`
      property, and its annotations. */
  datatype ActionHeader = ActionHeader(actionName: string, connectorName: Option<string>, annotations: seq<string>)

  /** setActionName as written: the name goes to `connector_name`, so the action name
      does not change. */
  function SetActionNameAsWritten(h: ActionHeader, name: string): (r: ActionHeader)
    ensures r.actionName == h.actionName && r.connectorName == Some(name) && r.annotations == h.annotations
  {
    h.(connectorName := Some(name))
  }

  /** setActionName as intended: the name read back by getActionName. */
  function SetActionNameIntended(h: ActionHeader, name: string): (r: ActionHeader)
  {
    h.(actionName := name)
  }

  /** As written, renaming an action to a new name is not seen by getActionName. */
  lemma {:induction false} SetActionNameAsWrittenLosesName()
    ensures var h := ActionHeader("newAction", None, []);
      SetActionNameAsWritten(h, "getUser").actionName == "newAction" != "getUser"
  {
    assert "newAction"[0] != "getUser"[0];
  }

  /** As intended, getActionName returns the name set, and nothing else changes. */
  lemma {:induction false} SetActionNameRoundTrip(h: ActionHeader, name: string)
    ensures SetActionNameIntended(h, name).actionName == name
    ensures SetActionNameIntended(h, name).(actionName := h.actionName) == h
  {
  }

  /** setAnnotations: a defined list replaces the annotations; null or undefined is
      ignored (with a warning). */
  function SetAnnotations(h: ActionHeader, annotations: Option<seq<string>>): (r: ActionHeader)
    ensures annotations.Some? ==> r.annotations == annotations.value
    ensures annotations.None? ==> r == h
    ensures r.actionName == h.actionName && r.connectorName == h.connectorName
  {
    if annotations.Some? then h.(annotations := annotations.value) else h
  }

  // ---------------------------------------------------------------------------
  // The AST node.

  class ConnectorAction {
    var header: ActionHeader
    var arguments: seq<Argument>
    var children: seq<Node>

    /** A new action: named "newAction" and with no annotations or arguments unless given. */
    constructor(actionName: Option<string>, annotations: Option<seq<string>>, arguments: Option<seq<Argument>>)
      ensures header == ActionHeader(actionName.GetOr("newAction"), None, annotations.GetOr([]))
      ensures this.arguments == arguments.GetOr([]) && children == []
    {
      header := ActionHeader(actionName.GetOr("newAction"), None, annotations.GetOr([]));
      this.arguments := arguments.GetOr([]);
      children := [];
    }

    function GetActionName(): string
      reads this
    {
      header.actionName
    }

    function GetAnnotations(): seq<string>
      reads this
    {
      header.annotations
    }

    function GetArguments(): seq<Argument>
      reads this
    {
      Arguments(children)
    }

    function GetReturnTypeModel(): Option<Node>
      reads this
    {
      var i := ReturnTypeIndex(children);
      if i.Some? then Some(children[i.value]) else None
    }

    /** setActionName as written: the name is stored as `connector_name`, so
        getActionName keeps returning the old name. */
    method SetActionName(name: string)
      modifies this
      ensures header == SetActionNameAsWritten(old(header), name)
      ensures children == old(children) && arguments == old(arguments)
      ensures GetActionName() == old(GetActionName()) && header.connectorName == Some(name)
    {
      header := SetActionNameAsWritten(header, name);
    }

    method SetAnnotationsOf(annotations: Option<seq<string>>)
      modifies this
      ensures header == SetAnnotations(old(header), annotations) && children == old(children)
    {
      header := SetAnnotations(header, annotations);
    }

    /** addVariableDeclaration. */
    method AddVariableDeclaration(v: Node)
      requires KindOf(v) == VariableDeclarationKind
      modifies this
      ensures children == Insert(old(children), VariableDeclarationSlot(old(children)), v)
      ensures VariableDeclarations(children) == VariableDeclarations(old(children)) + [v]
      ensures header == old(header)
    {
      AddVariableDeclarationPlacement(children, v, VariableDeclarationKind);
      var index := FindLastIndex(children, VariableDeclarationKind);
      if index == -1 {
        index := FindLastIndex(children, ConnectorDeclarationKind);
      }
      children := Insert(children, index + 1, v);
    }

    /** removeVariableDeclaration: `removeChild` of the declaration at the position. */
    method RemoveVariableDeclaration(i: nat)
      requires i < |children| && KindOf(children[i]) == VariableDeclarationKind
      modifies this
      ensures children == old(children[..i] + children[i + 1..])
      ensures header == old(header)
    {
      children := children[..i] + children[i + 1..];
    }

    /** addArgument. */
    method AddArgument(argType: Option<string>, identifier: Option<string>, newId: string)
      modifies this
      ensures children == Insert(old(children), ArgumentSlot(old(children)), ArgumentNode(Argument(newId, argType, identifier)))
      ensures GetArguments() == old(GetArguments()) + [Argument(newId, argType, identifier)]
      ensures header == old(header)
    {
      var newArgument := Argument(newId, argType, identifier);
      AddArgumentPlacement(children, newArgument, ArgumentKind);
      var index := FindLastIndex(children, ArgumentKind);
      children := Insert(children, index + 1, ArgumentNode(newArgument));
    }

    /** removeArgument. */
    method RemoveArgument(identifier: Option<string>)
      modifies this
      ensures children == RemoveArguments(old(children), identifier)
      ensures header == old(header)
    {
      children := RemoveArguments(children, identifier);
    }

    /** addReturnType: the model is added first when missing; then the new return type
        is checked and appended. */
    method AddReturnType(argType: string, identifier: Option<string>, newId: string, newModelId: string)
      returns (r: Option<ActionError>)
      modifies this
      ensures r.Some? <==> AddReturnTypeSpec(old(children), argType, identifier, newId, newModelId).Failure?
      ensures r.Some? ==> r.value == AddReturnTypeSpec(old(children), argType, identifier, newId, newModelId).error
      ensures r.Some? ==> children == old(children)
      ensures r.None? ==> children == AddReturnTypeSpec(old(children), argType, identifier, newId, newModelId).value
      ensures header == old(header)
    {
      if ReturnTypeIndex(children).None? {
        children := children + [ReturnTypeNode(newModelId, [])];
        ReturnTypeIndexAt(children, |children| - 1);
      }
      var i := ReturnTypeIndex(children).value;
      var existing := children[i].returnArgs;
      var error := AddReturnTypeError(existing, identifier);
      if error.Some? {
        return error;
      }
      var argument := Argument(newId, Some(argType), identifier);
      children := children[i := children[i].(returnArgs := existing + [argument])];
      return None;
    }

    /** removeReturnType. */
    method RemoveReturnType(modelId: string) returns (r: Option<ActionError>)
      modifies this
      ensures r.Some? <==> RemoveReturnTypeSpec(old(children), modelId).Failure?
      ensures r.Some? ==> r.value == RemoveReturnTypeSpec(old(children), modelId).error && children == old(children)
      ensures r.None? ==> children == RemoveReturnTypeSpec(old(children), modelId).value
      ensures header == old(header)
    {
      var model := ReturnTypeIndex(children);
      if model.None? {
        return Some(NoReturnTypeModel);
      }
      var args := children[model.value].returnArgs;
      var found := FindReturnType(args, modelId);
      if found.None? {
        return Some(ReturnTypeNotFound(modelId));
      }
      children := children[model.value := children[model.value].(returnArgs := args[..found.value] + args[found.value + 1..])];
      return None;
    }

    /** getArgumentsAsString: "type identifier" for each argument, ", " between them. */
    method GetArgumentsAsString() returns (s: string)
      ensures s == JoinWith(ArgumentTexts(GetArguments()), ", ")
    {
      var args := GetArguments();
      ghost var texts := ArgumentTexts(args);
      s := "";
      assert texts[..0] == [];
      for index := 0 to |args|
        invariant s == JoinWith(texts[..index], ", ") + Separator(index, |args|)
      {
        ghost var before := s;
        assert texts[index] == ArgumentText(args[index]);
        s := s + (JsText(args[index].argType) + " ");
        s := s + JsText(args[index].identifier);
        assert s == before + texts[index];
        if |args| - 1 != index {
          s := s + ", ";
        }
        JoinWithSeparatorStep(texts, index, before, texts[index], s);
      }
      assert texts[..|args|] == texts;
    }
  }
}
