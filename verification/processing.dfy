/**
 * The annotation-processing environment the generators talk to: exceptions, the Filer
 * that receives generated files and the Messager that receives diagnostics. Both sinks
 * are append-only logs; whether a write fails is decided by an injected outcome.
 */
module Processing {
  import opened Wrappers
  import opened Poet

  /** Exceptions that reach or leave the generators. */
  datatype Exception =
      /**
       * SourceFileGenerationException(generatedClassName, cause, associatedElement): the
       * optional name of the class being generated, the cause and the element; a checked exception.
       */
    | GenerationException(generatedClassName: Option<ClassName>, cause: Option<Exception>, element: Element)
      /** Any other checked exception, e.g. an IOException from the Filer. */
    | Checked(description: string)
      /** A RuntimeException or Error. */
    | Unchecked(description: string)

  /** How a Java call ended: it returned normally or it threw. */
  datatype Completion = Normal | Thrown(exception: Exception)

  /** javax.lang.model.util.Elements, as an opaque handle. */
  datatype Elements = ElementUtils(id: nat)

  /** javax.lang.model.SourceVersion, as an opaque handle. */
  datatype SourceVersion = Release(version: nat)

  /**
   * javax.annotation.processing.Filer. `writes` logs every JavaFile.writeTo attempt on it;
   * `failureFor` says, per file, whether that write throws (and what).
   */
  class Filer {
    var writes: seq<JavaFile>
    const failureFor: JavaFile -> Option<Exception>

    constructor (failureFor: JavaFile -> Option<Exception>)
      ensures writes == [] && this.failureFor == failureFor
    {
      writes := [];
      this.failureFor := failureFor;
    }

    /** JavaFile.writeTo(filer): logs each write attempt, whether or not `failureFor` makes it throw. */
    method WriteTo(file: JavaFile) returns (failure: Option<Exception>)
      modifies this`writes
      ensures writes == old(writes) + [file]
      ensures failure == failureFor(file)
    {
      writes := writes + [file];
      failure := failureFor(file);
    }
  }

  /** javax.annotation.processing.Messager; `printed` logs each exception reported to it. */
  class Messager {
    var printed: seq<Exception>

    constructor ()
      ensures printed == []
    {
      printed := [];
    }

    /** SourceFileGenerationException.printMessageTo(messager). */
    method PrintMessage(e: Exception)
      modifies this
      ensures printed == old(printed) + [e]
    {
      printed := printed + [e];
    }
  }
}
