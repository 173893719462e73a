/**
 * The part of JavaPoet's value model the generators use: class names, code blocks in
 * JavaPoet's own (format, arguments) form, field/method/type specifications, Java files,
 * and the mutable TypeSpec.Builder. Pretty-printing is not modelled.
 */
module Poet {
  import opened Wrappers
  import opened Strings

  /** A javax.lang.model Element that a generated type originates from. */
  datatype Element = Element(qualifiedName: string)

  /** com.squareup.javapoet.ClassName: a package and the nested simple names, outermost first. */
  datatype ClassName = ClassName(packageName: string, simpleNames: seq<string>)
  {
    /** Well formed: a package name and at least one simple name, all identifiers. */
    predicate Valid() {
      IsPackageName(packageName) && |simpleNames| > 0 &&
      forall k :: 0 <= k < |simpleNames| ==> IsIdentifier(simpleNames[k])
    }

    /** ClassName.simpleName(): the innermost simple name (JavaPoet never builds one without). */
    function SimpleName(): string {
      if |simpleNames| == 0 then "" else simpleNames[|simpleNames| - 1]
    }

    /** The nested simple names joined by `.`, as `Joiner.on(".").join(simpleNames())`. */
    function DottedSimpleNames(): string {
      Join(simpleNames, ".")
    }

    /** ClassName.canonicalName(): the form JavaPoet writes for `$T` when nothing is imported. */
    function CanonicalName(): string {
      if packageName == "" then DottedSimpleNames() else packageName + "." + DottedSimpleNames()
    }
  }

  /** A character that is neither an identifier character nor `.` is not in a valid canonical name. */
  lemma CanonicalNameAvoids(c: ClassName, ch: char)
    requires c.Valid() && !IsIdentifierChar(ch) && ch != '.'
    ensures ch !in c.CanonicalName()
  {
    JoinAvoids(c.simpleNames, ".", ch);
  }

  /**
   * A type as it appears in generated code: a class name, a constant of Hilt's
   * ClassNames/AndroidClassNames tables (named symbolically), `Object`, or a type
   * parameterized by one argument.
   */
  datatype TypeRef =
    | Class(name: ClassName)
    | Known(constant: string)
    | ObjectType
    | Parameterized(raw: TypeRef, argument: TypeRef)

  /** Modifiers of javax.lang.model.element.Modifier used here. */
  datatype Modifier = Public | Private | Static | Final

  /**
   * com.squareup.javapoet.CodeBlock as JavaPoet holds it: a format string with `$T`, `$L`,
   * `$N`, `$S` placeholders and the arguments that fill them, in order.
   */
  datatype CodeBlock = Code(format: string, args: seq<Arg>)

  /** An argument of a CodeBlock placeholder. */
  datatype Arg =
    | TypeArg(typeRef: TypeRef)            // $T
    | NameArg(name: string)                // $N
    | StringArg(text: string)              // $S
    | LiteralArg(text: string)             // $L with a string
    | BoolArg(value: bool)                 // $L with a boolean
    | BlockArg(block: CodeBlock)           // $L with a code block
    | AnonymousArg(anonymous: AnonymousClass) // $L with an anonymous TypeSpec

  /** An anonymous class: one superinterface and its methods. */
  datatype AnonymousClass = Anonymous(superinterface: TypeRef, methods: seq<MethodSpec>)

  /** A parameter: type and name. */
  datatype ParameterSpec = Parameter(typeRef: TypeRef, name: string)

  /** An annotation and its members, in the order they were added. */
  datatype AnnotationSpec = Annotation(typeRef: TypeRef, members: seq<AnnotationMember>)
  datatype AnnotationMember = Member(name: string, value: CodeBlock)

  datatype FieldSpec = Field(
    name: string,
    typeRef: TypeRef,
    modifiers: seq<Modifier>,
    initializer: Option<CodeBlock>)

  /** A method; `returnType == None` is `void`. Javadoc is not modelled. */
  datatype MethodSpec = Method(
    name: string,
    annotations: seq<AnnotationSpec>,
    modifiers: seq<Modifier>,
    parameters: seq<ParameterSpec>,
    returnType: Option<TypeRef>,
    statements: seq<CodeBlock>)

  /** A built TypeSpec of a class. Fields and methods are kept in the order they were added. */
  datatype TypeSpec = TypeSpec(
    name: ClassName,
    originatingElements: seq<Element>,
    modifiers: seq<Modifier>,
    superclass: Option<TypeRef>,
    superinterfaces: seq<TypeRef>,
    annotations: seq<AnnotationSpec>,
    fields: seq<FieldSpec>,
    methods: seq<MethodSpec>)

  /** A JavaFile: the package it goes to, its one top-level type and an optional file comment. */
  datatype JavaFile = JavaFile(
    packageName: string,
    typeSpec: TypeSpec,
    fileComment: Option<CodeBlock>,
    skipJavaLangImports: bool)

  /** TypeSpec.classBuilder(name) before anything is added. */
  function EmptyClass(name: ClassName): (t: TypeSpec)
    ensures t.name == name && t.fields == [] && t.methods == [] && t.annotations == []
  {
    TypeSpec(name, [], [], None, [], [], [], [])
  }

  /** TypeSpec.Builder: the type under construction, updated in place by each `add` call. */
  class TypeSpecBuilder {
    var spec: TypeSpec

    constructor ClassBuilder(name: ClassName)
      ensures spec == EmptyClass(name)
    {
      spec := EmptyClass(name);
    }

    method AddOriginatingElement(e: Element)
      modifies this
      ensures spec == old(spec).(originatingElements := old(spec).originatingElements + [e])
    {
      spec := spec.(originatingElements := spec.originatingElements + [e]);
    }

    method AddModifiers(ms: seq<Modifier>)
      modifies this
      ensures spec == old(spec).(modifiers := old(spec).modifiers + ms)
    {
      spec := spec.(modifiers := spec.modifiers + ms);
    }

    method Superclass(t: TypeRef)
      modifies this
      ensures spec == old(spec).(superclass := Some(t))
    {
      spec := spec.(superclass := Some(t));
    }

    method AddSuperinterface(t: TypeRef)
      modifies this
      ensures spec == old(spec).(superinterfaces := old(spec).superinterfaces + [t])
    {
      spec := spec.(superinterfaces := spec.superinterfaces + [t]);
    }

    method AddAnnotation(a: AnnotationSpec)
      modifies this
      ensures spec == old(spec).(annotations := old(spec).annotations + [a])
    {
      spec := spec.(annotations := spec.annotations + [a]);
    }

    method AddField(f: FieldSpec)
      modifies this
      ensures spec == old(spec).(fields := old(spec).fields + [f])
    {
      spec := spec.(fields := spec.fields + [f]);
    }

    method AddMethod(m: MethodSpec)
      modifies this
      ensures spec == old(spec).(methods := old(spec).methods + [m])
    {
      spec := spec.(methods := spec.methods + [m]);
    }
  }
}
