/**
 * Bytecode-writing helpers for generated adapter classes.
 *
 * A method visitor is modelled by the list of visit calls made on it (its
 * trace); a class visitor by the list of method visitors it handed out.
 * Opcode numbers and the meaning of each instruction follow The Java Virtual
 * Machine Specification, Java SE 8 Edition, section 6.5.
 */
module AsmUtils {
  import opened Wrappers
  import opened JavaInts

  // Opcodes (section 6.5 of the JVM specification) and access flags (section 4.6).
  const ICONST_M1: int := 2
  const ICONST_0: int := 3
  const ICONST_5: int := 8
  const BIPUSH: int := 16
  const SIPUSH: int := 17
  const LDC: int := 18
  const ALOAD: int := 25
  const RETURN: int := 177
  const INVOKESPECIAL: int := 183
  const ACC_PUBLIC: int := 1

  /** One call made on a method visitor. */
  datatype Insn =
    | Code                                   // visitCode
    | Insn(opcode: int)                      // visitInsn: an instruction without operand
    | IntInsn(opcode: int, operand: int)     // visitIntInsn: bipush / sipush
    | VarInsn(opcode: int, slot: int)        // visitVarInsn: a local-variable load or store
    | MethodInsn(opcode: int, owner: string, name: string, descriptor: string, isInterface: bool)
    | LdcInsn(constant: int)                 // visitLdcInsn with an Integer constant
    | Maxs(maxStack: int, maxLocals: int)    // visitMaxs
    | End                                    // visitEnd

  /** Reference table of iconst_<i>: the value each of the seven opcodes pushes. */
  function IconstValue(opcode: int): Option<int>
  {
    match opcode
    case 2 => Some(-1)
    case 3 => Some(0)
    case 4 => Some(1)
    case 5 => Some(2)
    case 6 => Some(3)
    case 7 => Some(4)
    case 8 => Some(5)
    case _ => None
  }

  /**
   * The int a constant-loading instruction pushes: bipush sign-extends its
   * byte operand, sipush its 16-bit operand, ldc loads the constant itself.
   */
  function Pushed(i: Insn): Option<int>
  {
    match i
    case Insn(op) => IconstValue(op)
    case IntInsn(op, v) =>
      if op == BIPUSH then Some(ToByte(v)) else if op == SIPUSH then Some(ToShort(v)) else None
    case LdcInsn(c) => Some(c)
    case _ => None
  }

  /** The operand of bipush must fit a byte and that of sipush a short. */
  predicate Encodable(i: Insn)
  {
    match i
    case IntInsn(op, v) =>
      (op == BIPUSH ==> -128 <= v <= 127) && (op == SIPUSH ==> -32768 <= v <= 32767)
    case _ => true
  }

  /** `getConstOpcode`: `ICONST_0 + number` in Java int arithmetic. */
  function GetConstOpcode(number: Int32): (r: Int32)
    ensures -1 <= number <= 5 ==> IconstValue(r) == Some(number)
    ensures !(-1 <= number <= 5) ==> IconstValue(r) == None
  {
    ToInt(ICONST_0 + number)
  }

  /** The single instruction `constantOpcode(MethodVisitor, int)` emits for `number`. */
  function ConstantInsn(number: Int32): (r: Insn)
    ensures Pushed(r) == Some(number) && Encodable(r)
    ensures r.Insn? <==> -1 <= number <= 5
    ensures r.IntInsn? && r.opcode == BIPUSH <==> -128 <= number <= 127 && !(-1 <= number <= 5)
    ensures r.IntInsn? && r.opcode == SIPUSH <==> -32768 <= number <= 32767 && !(-128 <= number <= 127)
    ensures r.LdcInsn? <==> !(-32768 <= number <= 32767)
    ensures r.Insn? || r.IntInsn? || r.LdcInsn?
  {
    if -1 <= number <= 5 then Insn(GetConstOpcode(number))
    else if -128 <= number <= 127 then IntInsn(BIPUSH, number)
    else if -32768 <= number <= 32767 then IntInsn(SIPUSH, ToShort(number))
    else LdcInsn(number)
  }

  /** The two instructions `writeSuperConstructor` emits: load `this`, call the no-argument constructor of `name`. */
  function SuperConstructorCall(name: string): seq<Insn>
  {
    [VarInsn(ALOAD, 0), MethodInsn(INVOKESPECIAL, name, "<init>", "()V", false)]
  }

  /** How many operand-stack entries an instruction pops and pushes. */
  datatype Effect = Effect(pops: nat, pushes: nat)

  /**
   * Stack effect of the instructions this unit emits (section 6.5): the
   * constant loads and aload push one entry, invokespecial of a `()V`
   * constructor pops its receiver, `return` leaves the stack as it is; the
   * calls that are not instructions have no effect. Anything else is unknown.
   */
  function StackEffect(i: Insn): Option<Effect>
  {
    match i
    case Code => Some(Effect(0, 0))
    case Maxs(_, _) => Some(Effect(0, 0))
    case End => Some(Effect(0, 0))
    case Insn(op) =>
      if IconstValue(op).Some? then Some(Effect(0, 1))
      else if op == RETURN then Some(Effect(0, 0))
      else None
    case IntInsn(op, _) => if op == BIPUSH || op == SIPUSH then Some(Effect(0, 1)) else None
    case LdcInsn(_) => Some(Effect(0, 1))
    case VarInsn(op, _) => if op == ALOAD then Some(Effect(0, 1)) else None
    case MethodInsn(op, _, _, desc, _) =>
      if op == INVOKESPECIAL && desc == "()V" then Some(Effect(1, 0)) else None
  }

  /**
   * Runs `code` on an operand stack of height `depth` and gives the largest
   * height reached, or None if some instruction is unknown or underflows.
   */
  function MaxDepth(code: seq<Insn>, depth: nat): (r: Option<nat>)
    ensures r.Some? ==> r.value >= depth
  {
    if code == [] then Some(depth)
    else match StackEffect(code[0])
      case None => None
      case Some(e) =>
        if e.pops > depth then None
        else
          var next := depth - e.pops + e.pushes;
          match MaxDepth(code[1..], next)
          case None => None
          case Some(m) => Some(if depth > m then depth else m)
  }

  /** Number of local-variable slots the loads and stores in `code` touch. */
  function LocalsUsed(code: seq<Insn>): (r: nat)
    ensures forall k :: 0 <= k < |code| && code[k].VarInsn? && code[k].slot >= 0 ==> code[k].slot < r
  {
    if code == [] then 0
    else
      var rest := LocalsUsed(code[1..]);
      if code[0].VarInsn? && code[0].slot >= rest then code[0].slot + 1 else rest
  }

  /**
   * The trace `writeDefaultConstructor` leaves on the constructor it adds:
   * the declared maximum stack and locals are exactly what the body needs.
   */
  function DefaultConstructorTrace(name: string): (t: seq<Insn>)
    ensures |t| == 6 && t[0] == Code && t[5] == End
    ensures t[1..3] == SuperConstructorCall(name) && t[3] == Insn(RETURN)
    ensures t[4] == Maxs(1, 1)
    ensures MaxDepth(t[1..4], 0) == Some(t[4].maxStack) && LocalsUsed(t[1..4]) == t[4].maxLocals
  {
    var body := SuperConstructorCall(name) + [Insn(RETURN)];
    assert MaxDepth(body[2..], 0) == Some(0) by { assert body[2..][1..] == []; }
    assert MaxDepth(body[1..], 1) == Some(1) by { assert body[1..][1..] == body[2..]; }
    assert MaxDepth(body, 0) == Some(1) by { assert body[1..] == [body[1], body[2]]; }
    assert LocalsUsed(body) == 1 by {
      assert LocalsUsed(body[2..]) == 0 by { assert body[2..][1..] == []; }
      assert LocalsUsed(body[1..]) == 0 by { assert body[1..][1..] == body[2..]; }
    }
    [Code] + body + [Maxs(1, 1), End]
  }

  /** Recorder of the calls made on one method body. */
  class MethodVisitor {
    const access: int
    const name: string
    const descriptor: string
    var trace: seq<Insn>

    constructor (access: int, name: string, descriptor: string)
      ensures this.access == access && this.name == name && this.descriptor == descriptor
      ensures trace == []
    {
      this.access := access;
      this.name := name;
      this.descriptor := descriptor;
      trace := [];
    }

    /** Any one of the visit calls: records it. */
    method Visit(i: Insn)
      modifies this
      ensures trace == old(trace) + [i]
    {
      trace := trace + [i];
    }
  }

  /** Recorder of the methods added to one class. */
  class ClassVisitor {
    var methods: seq<MethodVisitor>

    constructor ()
      ensures methods == []
    {
      methods := [];
    }

    /** `visitMethod`: opens a new, empty method body. */
    method VisitMethod(access: int, name: string, descriptor: string) returns (mv: MethodVisitor)
      modifies this
      ensures fresh(mv) && mv.access == access && mv.name == name && mv.descriptor == descriptor
      ensures mv.trace == []
      ensures methods == old(methods) + [mv]
    {
      mv := new MethodVisitor(access, name, descriptor);
      methods := methods + [mv];
    }
  }

  /** `constantOpcode(MethodVisitor, int)`: emits the one instruction that pushes `number`. */
  method ConstantOpcode(mv: MethodVisitor, number: Int32)
    modifies mv
    ensures mv.trace == old(mv.trace) + [ConstantInsn(number)]
    ensures Pushed(mv.trace[|mv.trace| - 1]) == Some(number)
    ensures StackEffect(mv.trace[|mv.trace| - 1]) == Some(Effect(0, 1))
  {
    if -1 <= number <= 5 {
      mv.Visit(Insn(GetConstOpcode(number)));
    } else if -128 <= number <= 127 {
      mv.Visit(IntInsn(BIPUSH, number));
    } else if -32768 <= number <= 32767 {
      mv.Visit(IntInsn(SIPUSH, ToShort(number)));
    } else {
      mv.Visit(LdcInsn(number));
    }
  }

  /** `writeSuperConstructor`: calls the superclass's no-argument constructor on `this`. */
  method WriteSuperConstructor(visitor: MethodVisitor, name: string)
    modifies visitor
    ensures visitor.trace == old(visitor.trace) + SuperConstructorCall(name)
  {
    visitor.Visit(VarInsn(ALOAD, 0));
    visitor.Visit(MethodInsn(INVOKESPECIAL, name, "<init>", "()V", false));
  }

  /** `writeDefaultConstructor`: adds a public `<init>()V` that only calls the superclass `name`'s constructor. */
  method WriteDefaultConstructor(visitor: ClassVisitor, name: string)
    modifies visitor
    ensures |visitor.methods| == |old(visitor.methods)| + 1
    ensures visitor.methods[..|old(visitor.methods)|] == old(visitor.methods)
    ensures forall m :: m in old(visitor.methods) ==> m.trace == old(m.trace)
    ensures var ctor := visitor.methods[|visitor.methods| - 1];
      fresh(ctor) && ctor.access == ACC_PUBLIC && ctor.name == "<init>" && ctor.descriptor == "()V"
      && ctor.trace == DefaultConstructorTrace(name)
  {
    var ctor := visitor.VisitMethod(ACC_PUBLIC, "<init>", "()V");
    ctor.Visit(Code);
    WriteSuperConstructor(ctor, name);
    ctor.Visit(Insn(RETURN));
    ctor.Visit(Maxs(1, 1));
    ctor.Visit(End);
  }

  /** What the bytecode verifier did with a class: the exception it raised, if any, and what it printed. */
  datatype VerifierRun = VerifierRun(raised: Option<string>, output: string)

  /** The `IllegalStateException` `validateClass` throws: the printed output, caused by the raised exception. */
  datatype Rejection = IllegalStateException(message: string, cause: Option<string>)

  /** `validateClass`: rejects exactly when the verifier raised or printed anything. */
  function ValidateClass(run: VerifierRun): (r: Option<Rejection>)
    ensures r.None? <==> run.raised.None? && |run.output| == 0
    ensures r.Some? ==> r.value.message == run.output && r.value.cause == run.raised
  {
    if run.raised.Some? || |run.output| > 0 then Some(IllegalStateException(run.output, run.raised)) else None
  }
}
