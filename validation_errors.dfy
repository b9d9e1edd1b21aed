/**
 * Rendering of validation failures (apps/api/src/main.ts):
 * `flattenValidationErrors` turns a tree of class-validator errors into
 * `"<dotted.path>: <message>"` lines, and the pipe's `exceptionFactory`
 * wraps them in a Bad Request body.
 */
module ValidationErrors {
  import opened Wrappers
  import opened Seqs

  /**
   * class-validator's `ValidationError`: the property it is about, its
   * failed constraints as (constraint key, message) pairs in the order of the
   * `constraints` object, and nested errors.  An undefined `children` is
   * the empty sequence: `error.children?.length` treats both alike.
   */
  datatype ValidationError = ValidationError(
    property: string,
    constraints: Option<seq<(string, string)>>,
    children: seq<ValidationError>)

  /** The body of the Bad Request the validation pipe raises. */
  datatype ValidationFailure = ValidationFailure(message: string, errors: seq<string>)

  /** `parentPath ? parentPath + "." + property : property`. */
  function FieldPath(parentPath: string, property: string): (path: string)
    ensures IsPrefix(parentPath, path)
  {
    if parentPath == "" then property else parentPath + "." + property
  }

  /** `Object.values(constraints)`, or `[]` when there are none. */
  function Messages(constraints: Option<seq<(string, string)>>): (ms: seq<string>)
    ensures constraints.Some? ==> |ms| == |constraints.value|
    ensures constraints.None? ==> ms == []
  {
    if constraints.None? then []
    else seq(|constraints.value|, i requires 0 <= i < |constraints.value| => constraints.value[i].1)
  }

  /** `"<path>: <message>"`. */
  function Line(path: string, message: string): string {
    path + ": " + message
  }

  function OwnLines(e: ValidationError, path: string): (ls: seq<string>)
    ensures |ls| == |Messages(e.constraints)|
    ensures forall i :: 0 <= i < |ls| ==> ls[i] == Line(path, Messages(e.constraints)[i])
  {
    var ms := Messages(e.constraints);
    seq(|ms|, i requires 0 <= i < |ms| => Line(path, ms[i]))
  }

  /** `flattenValidationErrors(errors, parentPath)`: the `flatMap` over `errors`. */
  function Flatten(errors: seq<ValidationError>, parentPath: string): seq<string>
    decreases errors
  {
    if errors == [] then []
    else FlattenError(errors[0], parentPath) + Flatten(errors[1..], parentPath)
  }

  /** The lines of one error: `[...ownErrors, ...childErrors]`. */
  function FlattenError(e: ValidationError, parentPath: string): seq<string>
    decreases e
  {
    var path := FieldPath(parentPath, e.property);
    OwnLines(e, path) + Flatten(e.children, path)
  }

  /** The number of constraint messages in a forest of errors. */
  function MessageCount(errors: seq<ValidationError>): nat
    decreases errors
  {
    if errors == [] then 0
    else ErrorMessageCount(errors[0]) + MessageCount(errors[1..])
  }

  function ErrorMessageCount(e: ValidationError): nat
    decreases e
  {
    |Messages(e.constraints)| + MessageCount(e.children)
  }

  /**
   * `line` is `"<path>: <message>"` for some node of the forest under
   * `parentPath`, `path` being that node's field path and `message` one of
   * its constraint messages.
   */
  predicate Rendered(errors: seq<ValidationError>, parentPath: string, line: string)
    decreases errors
  {
    errors != [] && (ErrorRendered(errors[0], parentPath, line) || Rendered(errors[1..], parentPath, line))
  }

  predicate ErrorRendered(e: ValidationError, parentPath: string, line: string)
    decreases e
  {
    var path := FieldPath(parentPath, e.property);
    var ms := Messages(e.constraints);
    (exists i :: 0 <= i < |ms| && line == Line(path, ms[i]))
      || Rendered(e.children, path, line)
  }

  /** `exceptionFactory: (errors) => new BadRequestException({...})`. */
  function ExceptionFactory(errors: seq<ValidationError>): (r: ValidationFailure)
    ensures r.message == "Validation failed"
    ensures |r.errors| == MessageCount(errors)
    ensures forall line :: line in r.errors ==>
      exists k :: 0 <= k < |errors| && IsPrefix(errors[k].property, line)
    ensures forall line :: line in r.errors <==> Rendered(errors, "", line)
  {
    FlattenLength(errors, "");
    FlattenPaths(errors, "");
    FlattenRendered(errors, "");
    ValidationFailure("Validation failed", Flatten(errors, ""))
  }

  /** One line per constraint message, at every depth of the tree. */
  lemma {:induction false} FlattenLength(errors: seq<ValidationError>, parentPath: string)
    ensures |Flatten(errors, parentPath)| == MessageCount(errors)
    decreases errors
  {
    if errors != [] {
      var e := errors[0];
      var path := FieldPath(parentPath, e.property);
      FlattenLength(e.children, path);
      FlattenLength(errors[1..], parentPath);
    }
  }

  /**
   * The flattened lines are exactly the rendered messages of the forest:
   * no line is made up, and no message of any node at any depth is lost.
   */
  lemma {:induction false} FlattenRendered(errors: seq<ValidationError>, parentPath: string)
    ensures forall line :: line in Flatten(errors, parentPath) <==> Rendered(errors, parentPath, line)
    decreases errors
  {
    if errors != [] {
      FlattenErrorRendered(errors[0], parentPath);
      FlattenRendered(errors[1..], parentPath);
    }
  }

  lemma {:induction false} FlattenErrorRendered(e: ValidationError, parentPath: string)
    ensures forall line :: line in FlattenError(e, parentPath) <==> ErrorRendered(e, parentPath, line)
    decreases e
  {
    var path := FieldPath(parentPath, e.property);
    var ms := Messages(e.constraints);
    var own := OwnLines(e, path);
    FlattenRendered(e.children, path);
    forall line ensures line in own <==> exists i :: 0 <= i < |ms| && line == Line(path, ms[i]) {
      if line in own {
        var i :| 0 <= i < |own| && own[i] == line;
        assert line == Line(path, ms[i]);
      }
      if exists i :: 0 <= i < |ms| && line == Line(path, ms[i]) {
        var i :| 0 <= i < |ms| && line == Line(path, ms[i]);
        assert own[i] == line;
      }
    }
  }

  /** Sibling errors contribute their lines in their input order. */
  lemma {:induction false} FlattenAppend(a: seq<ValidationError>, b: seq<ValidationError>, parentPath: string)
    ensures Flatten(a + b, parentPath) == Flatten(a, parentPath) + Flatten(b, parentPath)
  {
    if a == [] {
      assert a + b == b;
    } else {
      assert (a + b)[0] == a[0];
      assert (a + b)[1..] == a[1..] + b;
      FlattenAppend(a[1..], b, parentPath);
    }
  }

  /**
   * An error's own messages come first, each rendered as
   * `"<path>: <message>"`, before anything from its children.
   */
  lemma OwnLinesFirst(e: ValidationError, parentPath: string, i: nat)
    requires i < |Messages(e.constraints)|
    ensures i < |Flatten([e], parentPath)|
    ensures Flatten([e], parentPath)[i] == Line(FieldPath(parentPath, e.property), Messages(e.constraints)[i])
  {
  }

  /**
   * Each message of a top-level error appears in the Bad Request body as
   * `"<property>: <message>"`, whatever errors surround it.
   */
  lemma MessageListed(before: seq<ValidationError>, e: ValidationError, after: seq<ValidationError>, i: nat)
    requires i < |Messages(e.constraints)|
    ensures Line(e.property, Messages(e.constraints)[i]) in ExceptionFactory(before + [e] + after).errors
  {
    OwnLinesFirst(e, "", i);
    FlattenAppend(before, [e], "");
    FlattenAppend(before + [e], after, "");
    var all := Flatten(before + [e] + after, "");
    assert all[|Flatten(before, "")| + i] == Flatten([e], "")[i];
  }

  /** The first line of the body is the first message of the first error. */
  lemma FirstLine(e: ValidationError, after: seq<ValidationError>)
    requires Messages(e.constraints) != []
    ensures ExceptionFactory([e] + after).errors != []
    ensures ExceptionFactory([e] + after).errors[0] == Line(e.property, Messages(e.constraints)[0])
  {
    OwnLinesFirst(e, "", 0);
    FlattenAppend([e], after, "");
  }

  /** A node with no constraints and no children contributes nothing. */
  lemma EmptyNodeSilent(e: ValidationError, parentPath: string)
    requires e.constraints.None? || e.constraints == Some([])
    requires e.children == []
    ensures Flatten([e], parentPath) == []
  {
    assert [e][1..] == [];
    var path := FieldPath(parentPath, e.property);
    assert |OwnLines(e, path)| == 0;
    assert Flatten(e.children, path) == [];
    assert Flatten([e], parentPath) == FlattenError(e, parentPath) + Flatten([], parentPath);
  }

  /**
   * Every line starts with the path of one of the errors at this level, so
   * a nested line starts with `parentPath + "."` and a top-level line with
   * a top-level property name.
   */
  lemma {:induction false} FlattenPaths(errors: seq<ValidationError>, parentPath: string)
    ensures forall line :: line in Flatten(errors, parentPath) ==>
      exists k :: 0 <= k < |errors| && IsPrefix(FieldPath(parentPath, errors[k].property), line)
    decreases errors
  {
    if errors != [] {
      var e := errors[0];
      var path := FieldPath(parentPath, e.property);
      var own := OwnLines(e, path);
      var kids := Flatten(e.children, path);
      var rest := Flatten(errors[1..], parentPath);
      FlattenPaths(e.children, path);
      FlattenPaths(errors[1..], parentPath);
      assert Flatten(errors, parentPath) == own + kids + rest;
      forall line | line in Flatten(errors, parentPath)
        ensures exists k :: 0 <= k < |errors| && IsPrefix(FieldPath(parentPath, errors[k].property), line)
      {
        if line in own {
          var i :| 0 <= i < |own| && own[i] == line;
          PrefixOfConcat(path, path, ": " + Messages(e.constraints)[i]);
          assert IsPrefix(FieldPath(parentPath, errors[0].property), line);
        } else if line in kids {
          var k :| 0 <= k < |e.children| && IsPrefix(FieldPath(path, e.children[k].property), line);
          PrefixTransitive(path, FieldPath(path, e.children[k].property), line);
          assert IsPrefix(FieldPath(parentPath, errors[0].property), line);
        } else {
          assert line in rest;
          var k :| 0 <= k < |errors[1..]| && IsPrefix(FieldPath(parentPath, errors[1..][k].property), line);
          assert errors[1..][k] == errors[k + 1];
        }
      }
    }
  }

  /** A nested line starts with its parent's dotted path. */
  lemma NestedLinesPrefixed(errors: seq<ValidationError>, parentPath: string)
    requires parentPath != ""
    ensures forall line :: line in Flatten(errors, parentPath) ==> IsPrefix(parentPath + ".", line)
  {
    FlattenPaths(errors, parentPath);
    forall line | line in Flatten(errors, parentPath) ensures IsPrefix(parentPath + ".", line) {
      var k :| 0 <= k < |errors| && IsPrefix(FieldPath(parentPath, errors[k].property), line);
      PrefixOfConcat(parentPath + ".", parentPath + ".", errors[k].property);
      PrefixTransitive(parentPath + ".", FieldPath(parentPath, errors[k].property), line);
    }
  }
}
