/**
 * Dagger's SourceFileGenerator<T>: the template every generator goes through. It names the
 * type, asks the subclass for a builder (none means nothing to generate), finalizes and
 * writes the file once, and turns failures into SourceFileGenerationExceptions that name
 * the originating element; a second entry point reports them to the Messager instead.
 */
module SourceFiles {
  import opened Wrappers
  import opened Poet
  import opened Processing

  const GENERATED_COMMENTS := "https://google.github.io/dagger"
  const COMPONENT_PROCESSOR := "dagger.internal.codegen.ComponentProcessor"

  /**
   * The abstract methods a subclass implements. The naming and writing hooks may throw
   * unchecked exceptions (they declare no checked ones); originatingElement is taken as total.
   */
  datatype Hooks<-T> = Hooks(
    nameGeneratedType: T -> Attempt<ClassName>,
    originatingElement: T -> Element,
    write: (ClassName, T) -> Attempt<Option<TypeSpecBuilder>>)

  /**
   * Library behaviour this class relies on but that is not part of this model: the
   * GeneratedAnnotations.generatedAnnotation lookup, and whether TypeSpec.Builder.build()
   * rejects a type with an unchecked exception.
   */
  datatype Library = Library(
    generatedAnnotation: (Elements, SourceVersion) -> Option<ClassName>,
    buildFailure: TypeSpec -> Option<string>)

  /** `@Generated(value = "dagger.internal.codegen.ComponentProcessor", comments = "https://...")` */
  function GeneratedAnnotationSpec(annotation: ClassName): AnnotationSpec {
    Annotation(Class(annotation),
      [Member("value", Code("$S", [StringArg(COMPONENT_PROCESSOR)])),
       Member("comments", Code("$S", [StringArg(GENERATED_COMMENTS)]))])
  }

  /** `// Generated by Dagger (https://google.github.io/dagger).` */
  function GeneratedFileComment(): CodeBlock {
    Code("Generated by Dagger ($L).", [LiteralArg(GENERATED_COMMENTS)])
  }

  /** What buildJavaFile does to the builder: attach the element, then the annotation if any. */
  function Finalize(spec: TypeSpec, element: Element, marker: Option<ClassName>): TypeSpec {
    spec.(originatingElements := spec.originatingElements + [element],
          annotations := spec.annotations + (if marker.Some? then [GeneratedAnnotationSpec(marker.value)] else []))
  }

  /** The JavaFile buildJavaFile returns for the built type. */
  function JavaFileFor(name: ClassName, built: TypeSpec, marker: Option<ClassName>): JavaFile {
    JavaFile(name.packageName, built, if marker.Some? then None else Some(GeneratedFileComment()), true)
  }

  /**
   * Exactly one provenance marker: the @Generated annotation when the lookup finds one,
   * otherwise the file comment; the originating element is attached in both cases.
   */
  lemma ExactlyOneProvenanceMarker(name: ClassName, spec: TypeSpec, element: Element, marker: Option<ClassName>)
    ensures var f := JavaFileFor(name, Finalize(spec, element, marker), marker);
      && f.packageName == name.packageName
      && f.typeSpec.originatingElements == spec.originatingElements + [element]
      && (f.fileComment.Some? <==> marker.None?)
      && (marker.Some? ==> f.typeSpec.annotations == spec.annotations + [GeneratedAnnotationSpec(marker.value)])
      && (marker.None? ==> f.typeSpec.annotations == spec.annotations && f.fileComment == Some(GeneratedFileComment()))
  {
  }

  /**
   * The catch block: Throwables.propagateIfPossible rethrows a SourceFileGenerationException
   * or an unchecked exception as it is; any other (checked) exception is wrapped with no
   * generated class name, itself as the cause, and the originating element.
   */
  function Rethrow(e: Exception, element: Element): (r: Exception)
    ensures !r.Checked?
    ensures !e.Checked? ==> r == e
    ensures e.Checked? ==> r.GenerationException? && r.generatedClassName == None && r.cause == Some(e) && r.element == element
  {
    if e.Checked? then GenerationException(None, Some(e), element) else e
  }

  /** Rethrowing what was already rethrown changes nothing: no double wrapping. */
  lemma RethrowIsIdempotent(e: Exception, element: Element, other: Element)
    ensures Rethrow(Rethrow(e, element), other) == Rethrow(e, element)
  {
  }

  /**
   * One run of generate(input): how it completes, the files it hands to the Filer, and the
   * builder's contents after buildJavaFile (None when buildJavaFile is not reached).
   */
  datatype Trace = Trace(completion: Completion, written: seq<JavaFile>, finalized: Option<TypeSpec>)

  /**
   * generate(input) over the results of its steps: the name (`named`), the write hook's
   * builder contents (`written`, consulted only when naming succeeded), the originating
   * element, the generated-annotation lookup (`marker`), and the library's build and write
   * outcomes.
   */
  function Run(
    named: Attempt<ClassName>,
    written: Attempt<Option<TypeSpec>>,
    element: Element,
    marker: Option<ClassName>,
    buildFailure: TypeSpec -> Option<string>,
    writeFailure: JavaFile -> Option<Exception>): (t: Trace)
    ensures |t.written| <= 1
    // failures of the hooks propagate unwrapped, before anything is written
    ensures named.Raises? ==> t == Trace(Thrown(Unchecked(named.description)), [], None)
    ensures named.Ok? && written.Raises? ==> t == Trace(Thrown(Unchecked(written.description)), [], None)
    // nothing to generate: normal return, nothing written
    ensures named.Ok? && written == Ok(None) ==> t == Trace(Normal, [], None)
    // otherwise the builder always gets the element and one provenance marker
    ensures named.Ok? && written.Ok? && written.value.Some? ==>
      t.finalized == Some(Finalize(written.value.value, element, marker))
    // a finalized type that builds is written exactly once, as the file for the generated name
    ensures && named.Ok? && written.Ok? && written.value.Some?
            && buildFailure(Finalize(written.value.value, element, marker)).None? ==>
      t.written == [JavaFileFor(named.value, Finalize(written.value.value, element, marker), marker)]
    // a build failure is unchecked: it leaves unwrapped, and nothing is written
    ensures && named.Ok? && written.Ok? && written.value.Some?
            && buildFailure(Finalize(written.value.value, element, marker)).Some? ==>
      t == Trace(Thrown(Unchecked(buildFailure(Finalize(written.value.value, element, marker)).value)), [],
                 Some(Finalize(written.value.value, element, marker)))
    // a written file lies in the generated type's package and carries exactly one marker
    ensures t.written != [] ==>
      named.Ok? && t.finalized.Some? &&
      t.written[0] == JavaFileFor(named.value, t.finalized.value, marker)
    // the write's own failure: passed through or wrapped with the originating element
    ensures t.written != [] && writeFailure(t.written[0]).None? ==> t.completion == Normal
    ensures t.written != [] && writeFailure(t.written[0]).Some? && writeFailure(t.written[0]).value.Checked? ==>
      t.completion == Thrown(GenerationException(None, Some(writeFailure(t.written[0]).value), element))
    ensures t.written != [] && writeFailure(t.written[0]).Some? && !writeFailure(t.written[0]).value.Checked? ==>
      t.completion == Thrown(writeFailure(t.written[0]).value)
    // only a SourceFileGenerationException or an unchecked exception ever leaves generate
    ensures t.completion.Thrown? ==> !t.completion.exception.Checked?
  {
    match named
    case Raises(d) => Trace(Thrown(Unchecked(d)), [], None)
    case Ok(name) =>
      match written
      case Raises(d) => Trace(Thrown(Unchecked(d)), [], None)
      case Ok(None) => Trace(Normal, [], None)
      case Ok(Some(spec)) =>
        var finalized := Finalize(spec, element, marker);
        match buildFailure(finalized)
        case Some(d) => Trace(Thrown(Rethrow(Unchecked(d), element)), [], Some(finalized))
        case None =>
          var file := JavaFileFor(name, finalized, marker);
          match writeFailure(file)
          case None => Trace(Normal, [file], Some(finalized))
          case Some(e) => Trace(Thrown(Rethrow(e, element)), [file], Some(finalized))
  }

  /** What generate(input, messager) ends with and what it prints. */
  datatype Reported = Reported(completion: Completion, printed: seq<Exception>)

  /**
   * generate(input, messager): a SourceFileGenerationException is printed to the messager
   * and swallowed; any other completion passes through and nothing is printed.
   */
  function Report(c: Completion): (r: Reported)
    ensures !(r.completion.Thrown? && r.completion.exception.GenerationException?)
    ensures |r.printed| <= 1
    ensures r.printed != [] <==> c.Thrown? && c.exception.GenerationException?
    ensures r.printed != [] ==> r.printed == [c.exception] && r.completion == Normal
    ensures r.printed == [] ==> r.completion == c
  {
    if c.Thrown? && c.exception.GenerationException? then Reported(Normal, [c.exception])
    else Reported(c, [])
  }

  /** The builder contents a write hook's result stands for. */
  function WrittenSpec(w: Attempt<Option<TypeSpecBuilder>>): Attempt<Option<TypeSpec>>
    reads if w.Ok? && w.value.Some? then {w.value.value} else {}
  {
    match w
    case Raises(d) => Raises(d)
    case Ok(None) => Ok(None)
    case Ok(Some(b)) => Ok(Some(b.spec))
  }

  class SourceFileGenerator<T> {
    const filer: Filer
    const elements: Elements
    const sourceVersion: SourceVersion
    const hooks: Hooks<T>
    const library: Library

    constructor (filer: Filer, elements: Elements, sourceVersion: SourceVersion, hooks: Hooks<T>, library: Library)
      ensures this.filer == filer && this.elements == elements && this.sourceVersion == sourceVersion
      ensures this.hooks == hooks && this.library == library
    {
      this.filer := filer;
      this.elements := elements;
      this.sourceVersion := sourceVersion;
      this.hooks := hooks;
      this.library := library;
    }

    /** SourceFileGenerator(delegate): shares the delegate's filer, elements and source version. */
    constructor FromDelegate(delegate: SourceFileGenerator<T>, hooks: Hooks<T>, library: Library)
      ensures filer == delegate.filer && elements == delegate.elements && sourceVersion == delegate.sourceVersion
      ensures this.hooks == hooks && this.library == library
    {
      filer := delegate.filer;
      elements := delegate.elements;
      sourceVersion := delegate.sourceVersion;
      this.hooks := hooks;
      this.library := library;
    }

    /** The checkNotNull guards of the constructor: a null argument throws a NullPointerException. */
    static method Create(filer: Filer?, elements: Option<Elements>, sourceVersion: Option<SourceVersion>,
                         hooks: Hooks<T>, library: Library)
      returns (r: Attempt<SourceFileGenerator<T>>)
      ensures r.Raises? <==> filer == null || elements.None? || sourceVersion.None?
      ensures r.Raises? ==> r.description == "NullPointerException"
      ensures r.Ok? ==>
        && fresh(r.value) && r.value.filer == filer && r.value.elements == elements.value
        && r.value.sourceVersion == sourceVersion.value && r.value.hooks == hooks && r.value.library == library
    {
      if filer == null || elements.None? || sourceVersion.None? {
        return Raises("NullPointerException");
      }
      var g := new SourceFileGenerator(filer, elements.value, sourceVersion.value, hooks, library);
      r := Ok(g);
    }

    /** The generated-annotation lookup, decided by the elements and source version. */
    function Marker(): Option<ClassName> {
      library.generatedAnnotation(elements, sourceVersion)
    }

    /** The builder the write hook hands back for `input`, if any. */
    function Builders(input: T): set<TypeSpecBuilder> {
      var named := hooks.nameGeneratedType(input);
      if named.Raises? then {}
      else
        var w := hooks.write(named.value, input);
        if w.Ok? && w.value.Some? then {w.value.value} else {}
    }

    /** The run generate(input) performs, read off the current builder contents. */
    function Planned(input: T): Trace
      reads Builders(input)
    {
      var named := hooks.nameGeneratedType(input);
      var written := if named.Ok? then WrittenSpec(hooks.write(named.value, input)) else Ok(None);
      Run(named, written, hooks.originatingElement(input), Marker(), library.buildFailure, filer.failureFor)
    }

    /**
     * buildJavaFile: attaches the originating element and, when the lookup finds one, the
     * @Generated annotation to the builder in place, builds it, and adds the file comment
     * when there is no annotation.
     */
    method BuildJavaFile(generatedTypeName: ClassName, input: T, typeSpecBuilder: TypeSpecBuilder)
      returns (r: Attempt<JavaFile>)
      modifies typeSpecBuilder
      ensures typeSpecBuilder.spec == Finalize(old(typeSpecBuilder.spec), hooks.originatingElement(input), Marker())
      ensures library.buildFailure(typeSpecBuilder.spec).Some? ==>
        r == Raises(library.buildFailure(typeSpecBuilder.spec).value)
      ensures library.buildFailure(typeSpecBuilder.spec).None? ==>
        r == Ok(JavaFileFor(generatedTypeName, typeSpecBuilder.spec, Marker()))
    {
      typeSpecBuilder.AddOriginatingElement(hooks.originatingElement(input));
      var generatedAnnotation := if Marker().Some? then Some(GeneratedAnnotationSpec(Marker().value)) else None;
      if generatedAnnotation.Some? {
        typeSpecBuilder.AddAnnotation(generatedAnnotation.value);
      }
      var failure := library.buildFailure(typeSpecBuilder.spec);
      if failure.Some? {
        return Raises(failure.value);
      }
      var fileComment := if generatedAnnotation.None? then Some(GeneratedFileComment()) else None;
      r := Ok(JavaFile(generatedTypeName.packageName, typeSpecBuilder.spec, fileComment, true));
    }

    /** generate(input): the throwing entry point. */
    method Generate(input: T) returns (c: Completion)
      requires forall b | b in Builders(input) :: allocated(b)
      modifies filer, Builders(input)
      ensures c == old(Planned(input)).completion
      ensures filer.writes == old(filer.writes) + old(Planned(input)).written
      ensures old(Planned(input)).finalized.Some? ==>
        forall b | b in Builders(input) :: b.spec == old(Planned(input)).finalized.value
    {
      var named := hooks.nameGeneratedType(input);
      if named.Raises? {
        return Thrown(Unchecked(named.description));
      }
      var generatedTypeName := named.value;
      var builder := hooks.write(generatedTypeName, input);
      if builder.Raises? {
        return Thrown(Unchecked(builder.description));
      }
      if builder.value.None? {
        return Normal;
      }
      var b := builder.value.value;
      assert Builders(input) == {b};
      ghost var planned := Planned(input);
      assert planned.finalized == Some(Finalize(b.spec, hooks.originatingElement(input), Marker()));
      var built := BuildJavaFile(generatedTypeName, input, b);
      assert b.spec == planned.finalized.value;
      var failure: Option<Exception>;
      if built.Raises? {
        failure := Some(Unchecked(built.description));
      } else {
        failure := filer.WriteTo(built.value);
      }
      c := if failure.Some? then Thrown(Rethrow(failure.value, hooks.originatingElement(input))) else Normal;
    }

    /** generate(input, messager): the non-throwing entry point. */
    method GenerateAndReport(input: T, messager: Messager) returns (c: Completion)
      requires forall b | b in Builders(input) :: allocated(b)
      modifies filer, Builders(input), messager
      ensures c == Report(old(Planned(input)).completion).completion
      ensures messager.printed == old(messager.printed) + Report(old(Planned(input)).completion).printed
      ensures filer.writes == old(filer.writes) + old(Planned(input)).written
      ensures old(Planned(input)).finalized.Some? ==>
        forall b | b in Builders(input) :: b.spec == old(Planned(input)).finalized.value
    {
      c := Generate(input);
      if c.Thrown? && c.exception.GenerationException? {
        messager.PrintMessage(c.exception);
        c := Normal;
      }
    }
  }
}
