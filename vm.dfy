/**
 * The virtual machine of src/vm.rs: a call-frame loop over an opcode set of
 * its own (`Constant`, `Pop`, `Return`, `GetLocal`), and the emitter that
 * turns literal, ignored, parenthesised and block expressions into
 * `Constant`/`Pop` sequences on the compiler at the top of the compile stack.
 */
module Vm {
  import opened Wrappers
  import opened Values
  import opened Ast
  import Compiler

  datatype Op = Constant(index: nat) | Pop | Return | GetLocal(slot: nat)

  /** The chunk shape vm.rs reads: opcodes and a constant pool. */
  datatype VmChunk = VmChunk(codes: seq<Op>, constants: seq<Value>)

  datatype Function = Function(arity: nat, chunk: VmChunk, name: string)

  datatype CallFrame = CallFrame(func: Function, ip: nat, startingSlot: nat)

  // ---------------------------------------------------------------------
  // Compiling expressions
  // ---------------------------------------------------------------------

  /** `create_value_from_literal`. Strings are carried by content. */
  function CreateValueFromLiteral(l: Literal): (v: Value)
    ensures !v.Object?
  {
    match l
    case Nil => Value.Nil
    case Number(n) => Value.Number(n)
    case Boolean(b) => Value.Boolean(b)
    case String(s) => Value.String(s)
  }

  /** The literal a value was made from, if it can have been made from one. */
  function LiteralOf(v: Value): (r: Option<Literal>)
    ensures r.None? <==> v.Object?
  {
    match v
    case Nil => Some(Literal.Nil)
    case Number(n) => Some(Literal.Number(n))
    case Boolean(b) => Some(Literal.Boolean(b))
    case String(s) => Some(Literal.String(s))
    case Object(_) => None
  }

  /** Distinct literals give distinct values, and every non-object value is
      the value of exactly one literal. */
  lemma LiteralValueRoundTrip(l: Literal, v: Value)
    ensures LiteralOf(CreateValueFromLiteral(l)) == Some(l)
    ensures LiteralOf(v).Some? ==> CreateValueFromLiteral(LiteralOf(v).value) == v
  {
  }

  /** What compiling an expression appends: opcodes, and pool entries. */
  datatype Emitted = Emitted(codes: seq<Op>, constants: seq<Value>)

  /** The expressions `compile_expression` handles: literals, `;`,
      parentheses, braces and assignments, nested only in each other. */
  predicate Compilable(e: Expression)
    decreases e, 0
  {
    match e
    case Literal(_) => true
    case Ignored(inner) => Compilable(inner)
    case Parenthesised(items) => AllCompilable(items)
    case Block(items) => AllCompilable(items)
    case Assignment(_, _) => true
    case Call(_, _) => false
    case Cond(_, _) => false
    case Function(_, _, _) => false
    case Symbol(_) => false
  }

  predicate AllCompilable(es: seq<Expression>)
    decreases es, 1
  {
    forall i :: 0 <= i < |es| ==> Compilable(es[i])
  }

  /** What `compile_expression` appends for `e` when the pool already holds
      `base` constants; `None` where it reaches `unimplemented!()`. An
      assignment appends nothing, since `assign` only looks its target up. */
  function Emit(e: Expression, base: nat): Option<Emitted>
    decreases e, 0
  {
    match e
    case Literal(l) => Some(Emitted([Constant(base)], [CreateValueFromLiteral(l)]))
    case Ignored(inner) =>
      (match Emit(inner, base)
       case None => None
       case Some(x) => Some(Emitted(x.codes + [Pop], x.constants)))
    case Parenthesised(items) => EmitList(items, base)
    case Block(items) => EmitList(items, base)
    case Assignment(_, _) => Some(Emitted([], []))
    case Call(_, _) => None
    case Cond(_, _) => None
    case Function(_, _, _) => None
    case Symbol(_) => None
  }

  /** The expressions of `es` compiled one after the other. */
  function EmitSeq(es: seq<Expression>, base: nat): Option<Emitted>
    decreases es, 1
  {
    if es == [] then Some(Emitted([], []))
    else
      match EmitSeq(es[..|es| - 1], base)
      case None => None
      case Some(front) =>
        match Emit(es[|es| - 1], base + |front.constants|)
        case None => None
        case Some(last) => Some(Emitted(front.codes + last.codes, front.constants + last.constants))
  }

  /** The `empty_expression` test of `contained_expression_list`. */
  predicate EmptyExpression(es: seq<Expression>) {
    es == [] || es[|es| - 1].Ignored?
  }

  /** `contained_expression_list`: the list, then a `Nil` constant when the
      list leaves no value of its own. */
  function EmitList(es: seq<Expression>, base: nat): Option<Emitted>
    decreases es, 2
  {
    match EmitSeq(es, base)
    case None => None
    case Some(body) =>
      if EmptyExpression(es) then
        Some(Emitted(body.codes + [Constant(base + |body.constants|)], body.constants + [Value.Nil]))
      else Some(body)
  }

  /** `compile_expression` succeeds exactly on the `Compilable`
      expressions, and a list exactly when each of its expressions does. */
  lemma {:induction false} EmitDefined(e: Expression, base: nat)
    ensures Emit(e, base).Some? <==> Compilable(e)
    decreases e, 0
  {
    match e
    case Literal(_) =>
    case Ignored(inner) => EmitDefined(inner, base);
    case Parenthesised(items) => EmitListDefined(items, base);
    case Block(items) => EmitListDefined(items, base);
    case Assignment(_, _) =>
    case Call(_, _) =>
    case Cond(_, _) =>
    case Function(_, _, _) =>
    case Symbol(_) =>
  }

  lemma {:induction false} EmitSeqDefined(es: seq<Expression>, base: nat)
    ensures EmitSeq(es, base).Some? <==> AllCompilable(es)
    decreases es, 1
  {
    if es != [] {
      var prefix := es[..|es| - 1];
      EmitSeqDefined(prefix, base);
      assert AllCompilable(es) <==> AllCompilable(prefix) && Compilable(es[|es| - 1]) by {
        assert forall i :: 0 <= i < |prefix| ==> prefix[i] == es[i];
      }
      if EmitSeq(prefix, base).Some? {
        EmitDefined(es[|es| - 1], base + |EmitSeq(prefix, base).value.constants|);
      }
    }
  }

  lemma {:induction false} EmitListDefined(es: seq<Expression>, base: nat)
    ensures EmitList(es, base).Some? <==> AllCompilable(es)
    decreases es, 2
  {
    EmitSeqDefined(es, base);
  }

  /** Compiling one more expression after a list: the list's code, then
      the expression's, with its pool indices after the list's. */
  lemma EmitSeqSnoc(es: seq<Expression>, e: Expression, base: nat)
    ensures EmitSeq(es + [e], base) ==
      match EmitSeq(es, base)
      case None => None
      case Some(front) =>
        match Emit(e, base + |front.constants|)
        case None => None
        case Some(last) => Some(Emitted(front.codes + last.codes, front.constants + last.constants))
  {
    assert (es + [e])[..|es|] == es;
  }

  /** `contained_expression_list` adds exactly one pool entry, a `Nil`, and
      one `Constant` for it, exactly when the list is empty or ends in an
      ignored expression. */
  lemma EmitListNil(es: seq<Expression>, base: nat)
    requires EmitSeq(es, base).Some?
    ensures var body := EmitSeq(es, base).value;
      var r := EmitList(es, base).value;
      && (EmptyExpression(es) <==> |r.constants| == |body.constants| + 1)
      && (EmptyExpression(es) ==> r.constants[|body.constants|] == Value.Nil
                                  && r.codes == body.codes + [Constant(base + |body.constants|)])
      && (!EmptyExpression(es) ==> r == body)
  {
  }

  /** The pool indices of the `Constant` opcodes of `codes`, in order. */
  function ConstantIndices(codes: seq<Op>): seq<nat> {
    if codes == [] then []
    else
      var last := codes[|codes| - 1];
      ConstantIndices(codes[..|codes| - 1]) + (if last.Constant? then [last.index] else [])
  }

  lemma {:induction false} ConstantIndicesAppend(a: seq<Op>, b: seq<Op>)
    ensures ConstantIndices(a + b) == ConstantIndices(a) + ConstantIndices(b)
    decreases |b|
  {
    if b != [] {
      assert (a + b)[..|a + b| - 1] == a + b[..|b| - 1];
      assert (a + b)[|a + b| - 1] == b[|b| - 1];
      ConstantIndicesAppend(a, b[..|b| - 1]);
    } else {
      assert a + b == a;
    }
  }

  /** `n` consecutive pool indices from `lo`. */
  function Range(lo: nat, n: nat): seq<nat> {
    seq(n, i requires 0 <= i < n => lo + i)
  }

  /** Compiled code refers to the pool entries it adds, each once and in
      order: the `k`-th `Constant` names pool index `base + k`. */
  lemma {:induction false} EmitIndices(e: Expression, base: nat)
    requires Emit(e, base).Some?
    ensures ConstantIndices(Emit(e, base).value.codes) == Range(base, |Emit(e, base).value.constants|)
    decreases e, 0
  {
    match e
    case Literal(_) =>
      assert [Constant(base)][..0] == [];
    case Ignored(inner) =>
      EmitIndices(inner, base);
      ConstantIndicesAppend(Emit(inner, base).value.codes, [Pop]);
      assert [Pop][..0] == [];
    case Parenthesised(items) => EmitListIndices(items, base);
    case Block(items) => EmitListIndices(items, base);
    case Assignment(_, _) =>
  }

  lemma {:induction false} EmitSeqIndices(es: seq<Expression>, base: nat)
    requires EmitSeq(es, base).Some?
    ensures ConstantIndices(EmitSeq(es, base).value.codes) == Range(base, |EmitSeq(es, base).value.constants|)
    decreases es, 1
  {
    if es != [] {
      var front := EmitSeq(es[..|es| - 1], base).value;
      var last := Emit(es[|es| - 1], base + |front.constants|).value;
      EmitSeqIndices(es[..|es| - 1], base);
      EmitIndices(es[|es| - 1], base + |front.constants|);
      ConstantIndicesAppend(front.codes, last.codes);
      assert Range(base, |front.constants| + |last.constants|)
          == Range(base, |front.constants|) + Range(base + |front.constants|, |last.constants|);
    }
  }

  lemma {:induction false} EmitListIndices(es: seq<Expression>, base: nat)
    requires EmitList(es, base).Some?
    ensures ConstantIndices(EmitList(es, base).value.codes) == Range(base, |EmitList(es, base).value.constants|)
    decreases es, 2
  {
    EmitSeqIndices(es, base);
    var body := EmitSeq(es, base).value;
    if EmptyExpression(es) {
      var extra := [Constant(base + |body.constants|)];
      ConstantIndicesAppend(body.codes, extra);
      assert extra[..0] == [];
      assert Range(base, |body.constants| + 1) == Range(base, |body.constants|) + [base + |body.constants|];
    }
  }

  /** The net number of values the opcodes of `codes` leave on the stack. */
  function NetEffect(codes: seq<Op>): int {
    if codes == [] then 0
    else
      var last := codes[|codes| - 1];
      NetEffect(codes[..|codes| - 1]) + (if last.Constant? then 1 else if last.Pop? then -1 else 0)
  }

  lemma {:induction false} NetEffectAppend(a: seq<Op>, b: seq<Op>)
    ensures NetEffect(a + b) == NetEffect(a) + NetEffect(b)
    decreases |b|
  {
    if b != [] {
      assert (a + b)[..|a + b| - 1] == a + b[..|b| - 1];
      assert (a + b)[|a + b| - 1] == b[|b| - 1];
      NetEffectAppend(a, b[..|b| - 1]);
    } else {
      assert a + b == a;
    }
  }

  /** Expressions of the shape the tests of vm.rs compile, built from
      literals, `;`, parentheses and braces. In a list every expression but
      the last is terminated by `;`, and `;` is not doubled. Assignments are
      excluded: `assign` is a stub that compiles to no code, so a list
      ending in one leaves no value (`AssignmentLeavesNoValue`). */
  predicate WellFormed(e: Expression)
    decreases e, 0
  {
    match e
    case Literal(_) => true
    case Ignored(inner) => !inner.Ignored? && WellFormed(inner)
    case Parenthesised(items) => WellFormedList(items)
    case Block(items) => WellFormedList(items)
    case Assignment(_, _) => false
    case Call(_, _) => false
    case Cond(_, _) => false
    case Function(_, _, _) => false
    case Symbol(_) => false
  }

  predicate WellFormedList(es: seq<Expression>)
    decreases es, 1
  {
    forall i :: 0 <= i < |es| ==> WellFormed(es[i]) && (i < |es| - 1 ==> es[i].Ignored?)
  }

  /** Every well-formed expression leaves exactly one value on the stack,
      and an ignored one none: `Pop` always has a value to discard. */
  lemma {:induction false} EmitNetEffect(e: Expression, base: nat)
    requires WellFormed(e)
    ensures Emit(e, base).Some?
    ensures NetEffect(Emit(e, base).value.codes) == if e.Ignored? then 0 else 1
    decreases e, 0
  {
    match e
    case Literal(_) =>
      assert [Constant(base)][..0] == [];
    case Ignored(inner) =>
      EmitNetEffect(inner, base);
      NetEffectAppend(Emit(inner, base).value.codes, [Pop]);
      assert [Pop][..0] == [];
    case Parenthesised(items) => EmitListNetEffect(items, base);
    case Block(items) => EmitListNetEffect(items, base);
  }

  /** Dropping the last expression of a well-formed list leaves a
      well-formed list that is empty or ends in an ignored expression. */
  lemma WellFormedListPrefix(es: seq<Expression>)
    requires es != [] && WellFormedList(es)
    ensures WellFormedList(es[..|es| - 1]) && EmptyExpression(es[..|es| - 1])
  {
    var prefix := es[..|es| - 1];
    forall i | 0 <= i < |prefix|
      ensures WellFormed(prefix[i]) && (i < |prefix| - 1 ==> prefix[i].Ignored?)
    {
      assert prefix[i] == es[i];
    }
    if prefix != [] {
      assert prefix[|prefix| - 1] == es[|es| - 2];
    }
  }

  /** A well-formed list leaves one value, its last expression's, or none
      when it is empty or ends in an ignored expression. */
  lemma {:induction false} EmitSeqNetEffect(es: seq<Expression>, base: nat)
    requires WellFormedList(es)
    ensures EmitSeq(es, base).Some?
    ensures NetEffect(EmitSeq(es, base).value.codes) == if EmptyExpression(es) then 0 else 1
    decreases es, 1
  {
    if es != [] {
      var prefix := es[..|es| - 1];
      WellFormedListPrefix(es);
      EmitSeqNetEffect(prefix, base);
      var front := EmitSeq(prefix, base).value;
      var e := es[|es| - 1];
      assert WellFormed(e);
      EmitNetEffect(e, base + |front.constants|);
      var last := Emit(e, base + |front.constants|).value;
      assert EmitSeq(es, base).value.codes == front.codes + last.codes;
      NetEffectAppend(front.codes, last.codes);
      assert EmptyExpression(es) <==> e.Ignored?;
    }
  }

  lemma {:induction false} EmitListNetEffect(es: seq<Expression>, base: nat)
    requires WellFormedList(es)
    ensures EmitList(es, base).Some?
    ensures NetEffect(EmitList(es, base).value.codes) == 1
    decreases es, 2
  {
    EmitSeqNetEffect(es, base);
    var body := EmitSeq(es, base).value;
    if EmptyExpression(es) {
      var extra := [Constant(base + |body.constants|)];
      NetEffectAppend(body.codes, extra);
      assert extra[..0] == [];
    }
  }

  /** Run from an empty stack, `codes` never pops more than it has pushed:
      every prefix leaves a non-negative number of values. */
  predicate NoUnderflow(codes: seq<Op>) {
    forall n :: 0 <= n <= |codes| ==> NetEffect(codes[..n]) >= 0
  }

  /** Code that never underflows, followed by code that never underflows
      from the height the first leaves, never underflows. */
  lemma NoUnderflowAppend(a: seq<Op>, b: seq<Op>)
    requires NoUnderflow(a)
    requires forall n :: 0 <= n <= |b| ==> NetEffect(a) + NetEffect(b[..n]) >= 0
    ensures NoUnderflow(a + b)
  {
    forall n | 0 <= n <= |a + b|
      ensures NetEffect((a + b)[..n]) >= 0
    {
      if n <= |a| {
        assert (a + b)[..n] == a[..n];
      } else {
        assert (a + b)[..n] == a + b[..n - |a|];
        NetEffectAppend(a, b[..n - |a|]);
      }
    }
  }

  /** In code that never underflows, each `Pop` meets at least one value. */
  lemma PopFindsValue(codes: seq<Op>, n: nat)
    requires NoUnderflow(codes) && n < |codes| && codes[n] == Pop
    ensures NetEffect(codes[..n]) >= 1
  {
    assert codes[..n + 1][..n] == codes[..n];
  }

  /** A single `Constant` never underflows, from any height. */
  lemma ConstantNeverUnderflows(index: nat)
    ensures forall n :: 0 <= n <= 1 ==> NetEffect([Constant(index)][..n]) >= 0
  {
    assert [Constant(index)][..0] == [] && [Constant(index)][..1] == [Constant(index)];
  }

  /** In a well-formed expression every `Pop` finds a value to discard:
      from an empty stack, no prefix of its code leaves fewer than zero
      values. */
  lemma {:induction false} EmitNoUnderflow(e: Expression, base: nat)
    requires WellFormed(e)
    ensures Emit(e, base).Some? && NoUnderflow(Emit(e, base).value.codes)
    decreases e, 0
  {
    EmitNetEffect(e, base);
    match e
    case Literal(_) =>
      ConstantNeverUnderflows(base);
    case Ignored(inner) =>
      EmitNoUnderflow(inner, base);
      EmitNetEffect(inner, base);
      var a := Emit(inner, base).value.codes;
      assert [Pop][..0] == [] && [Pop][..1] == [Pop] && [Pop][..0] == [];
      NoUnderflowAppend(a, [Pop]);
    case Parenthesised(items) => EmitListNoUnderflow(items, base);
    case Block(items) => EmitListNoUnderflow(items, base);
  }

  lemma {:induction false} EmitSeqNoUnderflow(es: seq<Expression>, base: nat)
    requires WellFormedList(es)
    ensures EmitSeq(es, base).Some? && NoUnderflow(EmitSeq(es, base).value.codes)
    decreases es, 1
  {
    EmitSeqNetEffect(es, base);
    if es == [] {
      var none: seq<Op> := [];
      assert EmitSeq(es, base).value.codes == none && none[..0] == none;
    } else {
      var prefix := es[..|es| - 1];
      WellFormedListPrefix(es);
      EmitSeqNoUnderflow(prefix, base);
      var front := EmitSeq(prefix, base).value;
      var e := es[|es| - 1];
      assert WellFormed(e);
      EmitNoUnderflow(e, base + |front.constants|);
      var last := Emit(e, base + |front.constants|).value;
      assert EmitSeq(es, base).value.codes == front.codes + last.codes;
      assert front.codes[..|front.codes|] == front.codes;
      forall n | 0 <= n <= |last.codes|
        ensures NetEffect(front.codes) + NetEffect(last.codes[..n]) >= 0
      {
      }
      NoUnderflowAppend(front.codes, last.codes);
    }
  }

  lemma {:induction false} EmitListNoUnderflow(es: seq<Expression>, base: nat)
    requires WellFormedList(es)
    ensures EmitList(es, base).Some? && NoUnderflow(EmitList(es, base).value.codes)
    decreases es, 2
  {
    EmitSeqNoUnderflow(es, base);
    var body := EmitSeq(es, base).value;
    if EmptyExpression(es) {
      var index := base + |body.constants|;
      assert body.codes[..|body.codes|] == body.codes;
      ConstantNeverUnderflows(index);
      NoUnderflowAppend(body.codes, [Constant(index)]);
    }
  }

  /** A list ending in an assignment compiles to no code of its own and
      adds no `Nil`, so it leaves no value: the reason `WellFormed` leaves
      assignments out. */
  lemma AssignmentLeavesNoValue(es: seq<Expression>, target: string, value: Expression, base: nat)
    requires EmitSeq(es, base).Some?
    ensures EmitList(es + [Assignment(target, value)], base) == EmitSeq(es, base)
    ensures WellFormedList(es) && EmptyExpression(es)
            ==> NetEffect(EmitList(es + [Assignment(target, value)], base).value.codes) == 0
  {
    var front := EmitSeq(es, base).value;
    EmitSeqSnoc(es, Assignment(target, value), base);
    assert front.codes + [] == front.codes && front.constants + [] == front.constants;
    if WellFormedList(es) && EmptyExpression(es) {
      EmitSeqNetEffect(es, base);
    }
  }

  /** A block compiles to the same code as the parenthesised list of the
      same expressions. */
  lemma BlockAsParenthesised(items: seq<Expression>, base: nat)
    ensures Emit(Block(items), base) == Emit(Parenthesised(items), base)
  {
  }

  // The numbers of the tests, as IEEE-754 bit patterns.
  const MinusOne: bv64 := 0xBFF0_0000_0000_0000
  const Two: bv64 := 0x4000_0000_0000_0000
  const Three: bv64 := 0x4008_0000_0000_0000
  const Four: bv64 := 0x4010_0000_0000_0000

  function Num(bits: bv64): Expression {
    Literal(Literal.Number(bits))
  }

  /** The expressions of `-1;2\n\n;3;4`. */
  const LiteralProgram: seq<Expression> :=
    [Ignored(Num(MinusOne)), Ignored(Num(Two)), Ignored(Num(Three)), Num(Four)]

  /** The expressions of `((-1;2;)\n\n;3);4;`. */
  const ParensProgram: seq<Expression> :=
    [Ignored(Parenthesised([Ignored(Parenthesised([Ignored(Num(MinusOne)), Ignored(Num(Two))])), Num(Three)])),
     Ignored(Num(Four))]

  /** The expressions of `({-1;2;}\n\n;3);4;`. */
  const BracesProgram: seq<Expression> :=
    [Ignored(Parenthesised([Ignored(Block([Ignored(Num(MinusOne)), Ignored(Num(Two))])), Num(Three)])),
     Ignored(Num(Four))]

  const LiteralCodes: seq<Op> := [Constant(0), Pop, Constant(1), Pop, Constant(2), Pop, Constant(3)]
  const LiteralConstants: seq<Value> :=
    [Value.Number(MinusOne), Value.Number(Two), Value.Number(Three), Value.Number(Four)]

  /** `n;` compiles to a `Constant` for the number and a `Pop`. */
  lemma EmitIgnoredNumber(bits: bv64, base: nat)
    ensures Emit(Ignored(Num(bits)), base) == Some(Emitted([Constant(base), Pop], [Value.Number(bits)]))
  {
    assert [Constant(base)] + [Pop] == [Constant(base), Pop];
  }

  /** A one-expression list compiles like the expression. */
  lemma EmitSeqOne(e: Expression, base: nat)
    ensures EmitSeq([e], base) == Emit(e, base)
  {
    EmitSeqSnoc([], e, base);
    assert [] + [e] == [e];
    if Emit(e, base).Some? {
      var r := Emit(e, base).value;
      assert [] + r.codes == r.codes && [] + r.constants == r.constants;
    }
  }

  /** `-1;2;` as a list: two numbers, each popped. */
  lemma TwoIgnoredNumbers()
    ensures EmitSeq([Ignored(Num(MinusOne)), Ignored(Num(Two))], 0)
         == Some(Emitted([Constant(0), Pop, Constant(1), Pop], [Value.Number(MinusOne), Value.Number(Two)]))
  {
    var a, b := Ignored(Num(MinusOne)), Ignored(Num(Two));
    EmitIgnoredNumber(MinusOne, 0);
    EmitIgnoredNumber(Two, 1);
    EmitSeqOne(a, 0);
    EmitSeqSnoc([a], b, 0);
    assert [a] + [b] == [a, b];
    assert [Constant(0), Pop] + [Constant(1), Pop] == [Constant(0), Pop, Constant(1), Pop];
    assert [Value.Number(MinusOne)] + [Value.Number(Two)] == [Value.Number(MinusOne), Value.Number(Two)];
  }

  /** The literal test: consecutive pool indices, one `Pop` per `;`. */
  lemma LiteralProgramCodes()
    ensures EmitSeq(LiteralProgram, 0) == Some(Emitted(LiteralCodes, LiteralConstants))
  {
    var a, b, c, d := Ignored(Num(MinusOne)), Ignored(Num(Two)), Ignored(Num(Three)), Num(Four);
    TwoIgnoredNumbers();
    EmitIgnoredNumber(Three, 2);
    EmitSeqSnoc([a, b], c, 0);
    assert [a, b] + [c] == [a, b, c];
    EmitSeqSnoc([a, b, c], d, 0);
    assert [a, b, c] + [d] == LiteralProgram;
    assert [Constant(0), Pop, Constant(1), Pop] + [Constant(2), Pop] + [Constant(3)] == LiteralCodes;
    assert [Value.Number(MinusOne), Value.Number(Two)] + [Value.Number(Three)] + [Value.Number(Four)]
        == LiteralConstants;
  }

  const ParensCodes: seq<Op> :=
    [Constant(0), Pop, Constant(1), Pop, Constant(2), Pop, Constant(3), Pop, Constant(4), Pop]
  const ParensConstants: seq<Value> :=
    [Value.Number(MinusOne), Value.Number(Two), Value.Nil, Value.Number(Three), Value.Number(Four)]

  /** `(-1;2;);`: the list ends in `;`, so a `Nil` constant, pool index 2,
      follows it, and the `;` after the parentheses pops that. */
  lemma InnerParensCodes()
    ensures Emit(Ignored(Parenthesised([Ignored(Num(MinusOne)), Ignored(Num(Two))])), 0)
         == Some(Emitted(ParensCodes[..6], ParensConstants[..3]))
  {
    var items := [Ignored(Num(MinusOne)), Ignored(Num(Two))];
    TwoIgnoredNumbers();
    assert EmptyExpression(items);
    var listCodes := [Constant(0), Pop, Constant(1), Pop] + [Constant(2)];
    var listConstants := [Value.Number(MinusOne), Value.Number(Two)] + [Value.Nil];
    assert EmitList(items, 0) == Some(Emitted(listCodes, listConstants));
    assert Emit(Parenthesised(items), 0) == Some(Emitted(listCodes, listConstants));
    assert listCodes + [Pop] == ParensCodes[..6];
    assert listConstants == ParensConstants[..3];
  }

  /** `((-1;2;);3);`: the outer list ends in `3`, so no `Nil` is added. */
  lemma OuterParensCodes()
    ensures Emit(ParensProgram[0], 0) == Some(Emitted(ParensCodes[..8], ParensConstants[..4]))
  {
    var inner := Ignored(Parenthesised([Ignored(Num(MinusOne)), Ignored(Num(Two))]));
    var three := Num(Three);
    InnerParensCodes();
    EmitSeqOne(inner, 0);
    EmitSeqSnoc([inner], three, 0);
    assert [inner] + [three] == [inner, three];
    var listCodes, listConstants := ParensCodes[..6] + [Constant(3)], ParensConstants[..3] + [Value.Number(Three)];
    assert EmitSeq([inner, three], 0) == Some(Emitted(listCodes, listConstants));
    assert !EmptyExpression([inner, three]);
    assert Emit(Parenthesised([inner, three]), 0) == Some(Emitted(listCodes, listConstants));
    assert ParensProgram[0] == Ignored(Parenthesised([inner, three]));
    assert listCodes + [Pop] == ParensCodes[..8];
    assert listConstants == ParensConstants[..4];
  }

  /** The parens test. */
  lemma ParensProgramCodes()
    ensures EmitSeq(ParensProgram, 0) == Some(Emitted(ParensCodes, ParensConstants))
  {
    var four := Ignored(Num(Four));
    OuterParensCodes();
    EmitIgnoredNumber(Four, 4);
    EmitSeqOne(ParensProgram[0], 0);
    EmitSeqSnoc([ParensProgram[0]], four, 0);
    assert [ParensProgram[0]] + [four] == ParensProgram;
    assert ParensCodes[..8] + [Constant(4), Pop] == ParensCodes;
    assert ParensConstants[..4] + [Value.Number(Four)] == ParensConstants;
  }

  /** The first expression of the braces test, `((-1;2;);3);` with the
      inner parentheses as braces, compiles like that of the parens test. */
  lemma BracesFirstCodes()
    ensures Emit(BracesProgram[0], 0) == Emit(ParensProgram[0], 0)
  {
    var items := [Ignored(Num(MinusOne)), Ignored(Num(Two))];
    var three := Num(Three);
    var parenInner, blockInner := Ignored(Parenthesised(items)), Ignored(Block(items));
    assert Emit(blockInner, 0) == Emit(parenInner, 0);
    EmitSeqOne(parenInner, 0);
    EmitSeqOne(blockInner, 0);
    EmitSeqSnoc([parenInner], three, 0);
    EmitSeqSnoc([blockInner], three, 0);
    assert [parenInner] + [three] == [parenInner, three];
    assert [blockInner] + [three] == [blockInner, three];
    assert EmitSeq([blockInner, three], 0) == EmitSeq([parenInner, three], 0);
    assert !EmptyExpression([blockInner, three]) && !EmptyExpression([parenInner, three]);
    assert EmitList([blockInner, three], 0) == EmitList([parenInner, three], 0);
    assert Emit(Parenthesised([blockInner, three]), 0) == Emit(Parenthesised([parenInner, three]), 0);
    assert BracesProgram[0] == Ignored(Parenthesised([blockInner, three]));
    assert ParensProgram[0] == Ignored(Parenthesised([parenInner, three]));
  }

  /** The braces test: the block compiles like the parenthesised list, so
      the code is that of the parens test. */
  lemma BracesProgramCodes()
    ensures EmitSeq(BracesProgram, 0) == Some(Emitted(ParensCodes, ParensConstants))
  {
    var four := Ignored(Num(Four));
    BracesFirstCodes();
    ParensProgramCodes();
    EmitSeqOne(ParensProgram[0], 0);
    EmitSeqOne(BracesProgram[0], 0);
    EmitSeqSnoc([ParensProgram[0]], four, 0);
    EmitSeqSnoc([BracesProgram[0]], four, 0);
    assert [ParensProgram[0]] + [four] == ParensProgram;
    assert [BracesProgram[0]] + [four] == BracesProgram;
  }

  /** The last local named `name`: `iter().enumerate().rev().find(..)`. */
  function FindLocal(locals: seq<Compiler.Local>, name: string): (r: Option<nat>)
    ensures r.Some? ==> r.value < |locals| && locals[r.value].name == name
    ensures r.Some? ==> forall k :: r.value < k < |locals| ==> locals[k].name != name
    ensures r.None? ==> forall k :: 0 <= k < |locals| ==> locals[k].name != name
  {
    if locals == [] then None
    else if locals[|locals| - 1].name == name then Some(|locals| - 1)
    else FindLocal(locals[..|locals| - 1], name)
  }

  // ---------------------------------------------------------------------
  // Running frames
  // ---------------------------------------------------------------------

  datatype Machine = Machine(frames: seq<CallFrame>, slots: seq<Value>)

  /** How `run` ends: `Some(())`, `None`, or the `unimplemented!()` panic. */
  datatype Outcome = Halted | Fault | Unimplemented

  /** One pass of the `run` loop: go on from `next`, or stop in state `at`. */
  datatype Cycle = Continue(next: Machine) | Stop(outcome: Outcome, at: Machine)

  /** `step`: pop the top frame when it has no next opcode, else advance
      its `ip`; `None` on an empty frame stack. */
  function StepFrames(frames: seq<CallFrame>): (r: Option<seq<CallFrame>>)
    ensures r.None? <==> frames == []
    ensures r.Some? ==> var top := frames[|frames| - 1];
      var rest := frames[..|frames| - 1];
      || (top.ip + 1 >= |top.func.chunk.codes| && r.value == rest)
      || (top.ip + 1 < |top.func.chunk.codes| && r.value == rest + [top.(ip := top.ip + 1)])
  {
    if frames == [] then None
    else
      var top := frames[|frames| - 1];
      if top.ip + 1 >= |top.func.chunk.codes| then Some(frames[..|frames| - 1])
      else Some(frames[..|frames| - 1] + [top.(ip := top.ip + 1)])
  }

  /** Opcodes the top frame still has to run. */
  function Budget(m: Machine): nat {
    if m.frames == [] then 0
    else
      var top := m.frames[|m.frames| - 1];
      if top.ip < |top.func.chunk.codes| then |top.func.chunk.codes| - top.ip else 0
  }

  function AfterStep(frames: seq<CallFrame>, slots: seq<Value>): Cycle {
    match StepFrames(frames)
    case None => Stop(Fault, Machine(frames, slots))
    case Some(f) => Continue(Machine(f, slots))
  }

  /** The body of the `while let` loop for a non-empty frame stack: the top
      frame's opcode, then `step`. */
  function RunCycle(m: Machine): (r: Cycle)
    requires m.frames != []
    ensures r.Continue? ==> m.slots <= r.next.slots && |r.next.slots| <= |m.slots| + 1
    ensures r.Continue? ==>
      || |r.next.frames| < |m.frames|
      || (|r.next.frames| == |m.frames| && Budget(r.next) < Budget(m))
    ensures r.Stop? ==> r.outcome != Halted && r.at.slots == m.slots && |r.at.frames| <= |m.frames|
  {
    var top := m.frames[|m.frames| - 1];
    var chunk := top.func.chunk;
    if top.ip >= |chunk.codes| then Stop(Fault, m)
    else
      match chunk.codes[top.ip]
      case Constant(pos) =>
        if pos >= |chunk.constants| then Stop(Fault, m)
        else AfterStep(m.frames, m.slots + [chunk.constants[pos]])
      case Return => AfterStep(m.frames[..|m.frames| - 1], m.slots)
      case GetLocal(_) => AfterStep(m.frames, m.slots)
      case Pop => Stop(Unimplemented, m)
  }

  /** `run` from `m`: how it ends and the state it ends in. */
  function Execute(m: Machine): (r: (Outcome, Machine))
    ensures r.0 == Halted ==> r.1.frames == []
    ensures m.slots <= r.1.slots
    ensures |r.1.frames| <= |m.frames|
    decreases |m.frames|, Budget(m)
  {
    if m.frames == [] then (Halted, m)
    else
      match RunCycle(m)
      case Stop(o, at) => (o, at)
      case Continue(n) => Execute(n)
  }

  /** A `Constant` whose index is in the pool pushes exactly that pool entry,
      and the `step` that follows cannot fail; an index past the pool stops
      the loop with the state untouched. */
  lemma {:induction false} RunCycleConstant(m: Machine)
    requires m.frames != []
    requires var top := m.frames[|m.frames| - 1];
      top.ip < |top.func.chunk.codes| && top.func.chunk.codes[top.ip].Constant?
    ensures var chunk := m.frames[|m.frames| - 1].func.chunk;
      var pos := chunk.codes[m.frames[|m.frames| - 1].ip].index;
      && (pos < |chunk.constants| ==>
            && StepFrames(m.frames).Some?
            && RunCycle(m) == Continue(Machine(StepFrames(m.frames).value, m.slots + [chunk.constants[pos]])))
      && (pos >= |chunk.constants| ==> RunCycle(m) == Stop(Fault, m))
  {
  }

  /** `Return` removes the top frame, and `step` then acts on the frame below:
      one or two frames fewer in all, the slots untouched; in the last frame
      there is nothing below and the loop fails. */
  lemma {:induction false} RunCycleReturn(m: Machine)
    requires m.frames != []
    requires var top := m.frames[|m.frames| - 1];
      top.ip < |top.func.chunk.codes| && top.func.chunk.codes[top.ip] == Return
    ensures var below := m.frames[..|m.frames| - 1];
      && (below == [] ==> RunCycle(m) == Stop(Fault, Machine([], m.slots)))
      && (below != [] ==> RunCycle(m) == Continue(Machine(StepFrames(below).value, m.slots)))
      && (below != [] ==> StepFrames(below).value[..|below| - 1] == m.frames[..|m.frames| - 2])
  {
    var below := m.frames[..|m.frames| - 1];
    if below != [] {
      var r := StepFrames(below).value;
      assert below[..|below| - 1] == m.frames[..|m.frames| - 2];
      if |r| == |below| {
        assert r[..|below| - 1] == below[..|below| - 1];
      }
    }
  }

  /** A frame over `codes` and `constants` at its first opcode. */
  function Entry(codes: seq<Op>, constants: seq<Value>): CallFrame {
    CallFrame(Function.Function(0, VmChunk(codes, constants), ""), 0, 0)
  }

  /** A single `Constant` runs to completion with the constant on the stack. */
  lemma RunConstant(v: Value)
    ensures Execute(Machine([Entry([Constant(0)], [v])], [])) == (Halted, Machine([], [v]))
  {
    assert RunCycle(Machine([Entry([Constant(0)], [v])], [])) == Continue(Machine([], [v]));
  }

  /** `Return` in the only frame pops it, and the `step` that follows finds
      no frame, so `run` fails. */
  lemma RunReturnFromLastFrame(v: Value)
    ensures Execute(Machine([Entry([Constant(0), Return], [v])], [])) == (Fault, Machine([], [v]))
  {
    var f := Entry([Constant(0), Return], [v]);
    assert RunCycle(Machine([f], [])) == Continue(Machine([f.(ip := 1)], [v]));
  }

  /** Whenever the top frame's `ip` has no opcode, `run` fails at once,
      whatever the rest of the machine holds. */
  lemma RunPastEnd(m: Machine)
    requires m.frames != []
    requires var top := m.frames[|m.frames| - 1]; top.ip >= |top.func.chunk.codes|
    ensures Execute(m) == (Fault, m)
  {
  }

  /** Code compiled from the literal test stops at its first `Pop`, which
      `run` does not implement, with the first constant on the stack. */
  lemma RunLiteralProgram()
    ensures var f := Entry(LiteralCodes, LiteralConstants);
      Execute(Machine([f], [])) == (Unimplemented, Machine([f.(ip := 1)], [Value.Number(MinusOne)]))
  {
    var f := Entry(LiteralCodes, LiteralConstants);
    var m := Machine([f.(ip := 1)], [Value.Number(MinusOne)]);
    assert LiteralCodes[0] == Constant(0) && LiteralConstants[0] == Value.Number(MinusOne);
    assert |f.func.chunk.codes| == 7 && [f][..0] + [f.(ip := 1)] == [f.(ip := 1)];
    assert StepFrames([f]) == Some([f.(ip := 1)]);
    assert RunCycle(Machine([f], [])) == Continue(m);
    assert LiteralCodes[1] == Pop;
    assert RunCycle(m) == Stop(Unimplemented, m);
  }

  // ---------------------------------------------------------------------
  // Compiler state and the machine object
  // ---------------------------------------------------------------------

  /** The compiler at the top of the compile stack, as vm.rs uses it: a
      scope depth, the locals, and a chunk of `Op`s with its pool.
      It is a class of its own, not `Compiler.Compiler`, because vm.rs
      reaches into a chunk of `Op`s with a `constants` pool, which the
      byte-coded `Chunk.Chunk` of chunk.rs does not have. `EnterBlock` and
      `ExitBlock` therefore appear in both, with the same contracts. */
  class CompileContext {
    var depth: nat
    var locals: seq<Compiler.Local>
    var codes: seq<Op>
    var constants: seq<Value>

    constructor ()
      ensures depth == 0 && locals == [] && codes == [] && constants == []
    {
      depth, locals, codes, constants := 0, [], [], [];
    }

    /** Appends `value` to the pool and a `Constant` naming it. */
    method AddConstant(value: Value) returns (index: nat)
      modifies this`codes, this`constants
      ensures index == |old(constants)|
      ensures constants == old(constants) + [value]
      ensures codes == old(codes) + [Constant(index)]
    {
      index := |constants|;
      constants := constants + [value];
      codes := codes + [Constant(index)];
    }

    /** Appends a `Pop`. */
    method Pop()
      modifies this`codes
      ensures codes == old(codes) + [Op.Pop]
    {
      codes := codes + [Op.Pop];
    }

    method EnterBlock()
      modifies this`depth
      ensures depth == old(depth) + 1
    {
      depth := depth + 1;
    }

    method ExitBlock()
      requires depth > 0
      modifies this`depth
      ensures depth == old(depth) - 1
    {
      depth := depth - 1;
    }
  }

  class VM {
    var frames: seq<CallFrame>
    var slots: seq<Value>
    var objects: seq<Value>

    /** `VM::default()`. */
    constructor ()
      ensures frames == [] && slots == [] && objects == []
    {
      frames, slots, objects := [], [], [];
    }

    function State(): Machine
      reads this
    {
      Machine(frames, slots)
    }

    /** `step`. `ok` is false for `None`. */
    method Step() returns (ok: bool)
      modifies this`frames
      ensures StepFrames(old(frames)) == if ok then Some(frames) else None
      ensures !ok ==> frames == old(frames)
    {
      if frames == [] {
        return false;
      }
      var top := frames[|frames| - 1];
      if top.ip + 1 >= |top.func.chunk.codes| {
        frames := frames[..|frames| - 1];
      } else {
        frames := frames[..|frames| - 1] + [top.(ip := top.ip + 1)];
      }
      ok := true;
    }

    /** `get_local`: a stub that changes nothing. */
    method GetLocal()
    {
    }

    /** `run`: dispatches the top frame's opcode until no frame is left. */
    method Run() returns (outcome: Outcome)
      modifies this`frames, this`slots
      ensures (outcome, State()) == Execute(old(State()))
    {
      while frames != []
        invariant Execute(State()) == Execute(old(State()))
        decreases |frames|, Budget(State())
      {
        ghost var before := State();
        var top := frames[|frames| - 1];
        var chunk := top.func.chunk;
        if top.ip >= |chunk.codes| {
          return Fault;
        }
        match chunk.codes[top.ip] {
          case Constant(pos) =>
            if pos >= |chunk.constants| {
              return Fault;
            }
            slots := slots + [chunk.constants[pos]];
          case Return =>
            frames := frames[..|frames| - 1];
          case GetLocal(_) =>
            GetLocal();
          case Pop =>
            return Unimplemented;
        }
        var ok := Step();
        if !ok {
          return Fault;
        }
        assert RunCycle(before) == Continue(State());
      }
      outcome := Halted;
    }

    /** `push_frame`: calls `func` with its slots starting at the top of
        the stack. */
    method PushFrame(func: Function)
      modifies this`frames
      ensures frames == old(frames) + [CallFrame(func, 0, |slots|)]
    {
      frames := frames + [CallFrame(func, 0, |slots|)];
    }

    /** `compile_expression` on the compiler `context`. `completed` is false
        where the source reaches `unimplemented!()`. */
    method CompileExpression(context: CompileContext, e: Expression) returns (completed: bool)
      modifies context
      ensures completed == Emit(e, old(|context.constants|)).Some?
      ensures completed ==>
        var r := Emit(e, old(|context.constants|)).value;
        && context.codes == old(context.codes) + r.codes
        && context.constants == old(context.constants) + r.constants
        && context.depth == old(context.depth)
        && context.locals == old(context.locals)
      decreases e, 0
    {
      match e {
        case Literal(l) =>
          var value := CreateValueFromLiteral(l);
          var _ := context.AddConstant(value);
          completed := true;
        case Ignored(inner) =>
          completed := CompileExpression(context, inner);
          if completed {
            context.Pop();
          }
        case Parenthesised(items) =>
          completed := ContainedExpressionList(context, items);
        case Block(items) =>
          context.EnterBlock();
          completed := ContainedExpressionList(context, items);
          if completed {
            context.ExitBlock();
          }
        case Assignment(target, _) =>
          var _ := Assign(context, target);
          completed := true;
        case Call(_, _) =>
          completed := false;
        case Cond(_, _) =>
          completed := false;
        case Function(_, _, _) =>
          completed := false;
        case Symbol(_) =>
          completed := false;
      }
    }

    /** `assign`: looks the target up among the locals and discards what it
        finds. */
    method Assign(context: CompileContext, target: string) returns (local: Option<nat>)
      ensures local == FindLocal(context.locals, target)
    {
      local := FindLocal(context.locals, target);
    }

    /** `contained_expression_list`. */
    method ContainedExpressionList(context: CompileContext, es: seq<Expression>) returns (completed: bool)
      modifies context
      ensures completed == EmitList(es, old(|context.constants|)).Some?
      ensures completed ==>
        var r := EmitList(es, old(|context.constants|)).value;
        && context.codes == old(context.codes) + r.codes
        && context.constants == old(context.constants) + r.constants
        && context.depth == old(context.depth)
        && context.locals == old(context.locals)
      decreases es, 2
    {
      var emptyExpression := EmptyExpression(es);
      completed := CompileSequence(context, es);
      if completed && emptyExpression {
        var _ := context.AddConstant(Value.Nil);
      }
    }

    /** The `for_each` over a list of expressions. */
    method CompileSequence(context: CompileContext, es: seq<Expression>) returns (completed: bool)
      modifies context
      ensures completed == EmitSeq(es, old(|context.constants|)).Some?
      ensures completed ==>
        var r := EmitSeq(es, old(|context.constants|)).value;
        && context.codes == old(context.codes) + r.codes
        && context.constants == old(context.constants) + r.constants
        && context.depth == old(context.depth)
        && context.locals == old(context.locals)
      decreases es, 1
    {
      ghost var base := |context.constants|;
      for i := 0 to |es|
        invariant EmitSeq(es[..i], base).Some?
        invariant var r := EmitSeq(es[..i], base).value;
          && context.codes == old(context.codes) + r.codes
          && context.constants == old(context.constants) + r.constants
          && context.depth == old(context.depth)
          && context.locals == old(context.locals)
      {
        assert es[..i + 1] == es[..i] + [es[i]];
        EmitSeqSnoc(es[..i], es[i], base);
        var ok := CompileExpression(context, es[i]);
        if !ok {
          EmitSeqPrefixFails(es, i + 1, base);
          return false;
        }
      }
      assert es[..|es|] == es;
      completed := true;
    }

    /** `compile`: a fresh compile stack holding one compiler, and every
        expression of `program` compiled on it in order. */
    method Compile(program: seq<Expression>) returns (completed: bool, context: CompileContext)
      ensures fresh(context)
      ensures completed == EmitSeq(program, 0).Some?
      ensures completed ==>
        && context.codes == EmitSeq(program, 0).value.codes
        && context.constants == EmitSeq(program, 0).value.constants
        && context.depth == 0 && context.locals == []
    {
      context := new CompileContext();
      completed := CompileSequence(context, program);
    }
  }

  /** Once a prefix of a list fails to compile, so does the whole list. */
  lemma {:induction false} EmitSeqPrefixFails(es: seq<Expression>, n: nat, base: nat)
    requires n <= |es| && EmitSeq(es[..n], base).None?
    ensures EmitSeq(es, base).None?
    decreases |es| - n
  {
    if n < |es| {
      assert es[..n + 1][..n] == es[..n];
      EmitSeqPrefixFails(es, n + 1, base);
    } else {
      assert es[..n] == es;
    }
  }
}
