/**
 * `LogMessageContext`: where a log message came from (thread, module,
 * source file, function and line), as a small mutable record.
 */
module LogContext {
  import opened FixedWidth

  datatype ContextFields = ContextFields(
    threadName: string, moduleName: string, fileName: string, functionName: string, lineNumber: int32)

  /** What `init` resets a context to. */
  const Blank: ContextFields := ContextFields("", "", "", "", 0)

  class LogMessageContext {
    var threadName: string
    var moduleName: string
    var fileName: string
    var functionName: string
    var lineNumber: int32

    function Fields(): ContextFields
      reads this
    {
      ContextFields(threadName, moduleName, fileName, functionName, lineNumber)
    }

    function ThreadName(): string
      reads this
    {
      threadName
    }

    function ModuleName(): string
      reads this
    {
      moduleName
    }

    function FileName(): string
      reads this
    {
      fileName
    }

    function FunctionName(): string
      reads this
    {
      functionName
    }

    function LineNumber(): int32
      reads this
    {
      lineNumber
    }

    /** The default constructor: empty strings and line 0. */
    constructor Empty()
      ensures Fields() == Blank
    {
      threadName, moduleName, fileName, functionName, lineNumber := "", "", "", "", 0;
    }

    /** The full constructor stores exactly what it is given; the getters return it. */
    constructor (thread: string, mod: string, file: string, func: string, line: int32)
      ensures Fields() == ContextFields(thread, mod, file, func, line)
      ensures ThreadName() == thread && ModuleName() == mod && FileName() == file
      ensures FunctionName() == func && LineNumber() == line
    {
      threadName, moduleName, fileName, functionName, lineNumber := "", "", "", "", 0;
      new;
      threadName := thread;
      moduleName := mod;
      fileName := file;
      functionName := func;
      lineNumber := line;
    }

    /** The copy constructor: a new context with the other's fields. */
    constructor Copy(other: LogMessageContext)
      ensures Fields() == other.Fields()
    {
      threadName := other.ThreadName();
      moduleName := other.ModuleName();
      fileName := other.FileName();
      functionName := other.FunctionName();
      lineNumber := other.LineNumber();
    }

    /** Assignment copies every field, also when `other` is this context. */
    method Assign(other: LogMessageContext)
      modifies this
      ensures Fields() == old(other.Fields())
    {
      threadName := other.ThreadName();
      moduleName := other.ModuleName();
      fileName := other.FileName();
      functionName := other.FunctionName();
      lineNumber := other.LineNumber();
    }

    method Init()
      modifies this
      ensures Fields() == Blank
    {
      threadName := "";
      moduleName := "";
      fileName := "";
      functionName := "";
      lineNumber := 0;
    }

    method SetThreadName(arg: string)
      modifies this
      ensures ThreadName() == arg && Fields() == old(Fields()).(threadName := arg)
    {
      threadName := arg;
    }

    method SetModuleName(arg: string)
      modifies this
      ensures ModuleName() == arg && Fields() == old(Fields()).(moduleName := arg)
    {
      moduleName := arg;
    }

    method SetFileName(arg: string)
      modifies this
      ensures FileName() == arg && Fields() == old(Fields()).(fileName := arg)
    {
      fileName := arg;
    }

    method SetFunctionName(arg: string)
      modifies this
      ensures FunctionName() == arg && Fields() == old(Fields()).(functionName := arg)
    {
      functionName := arg;
    }

    method SetLineNumber(arg: int32)
      modifies this
      ensures LineNumber() == arg && Fields() == old(Fields()).(lineNumber := arg)
    {
      lineNumber := arg;
    }
  }
}
