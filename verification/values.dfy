/**
 Shared vocabulary of the coordinator model: optional values, Python exceptions
 (identified by the classes they are instances of) and the opaque payloads that
 objective functions, parameters and attributes carry.
 */
module Values {

  /** The conventional Some/None datatype, standing for a Python value that may be `None`. */
  datatype Option<+T> = None | Some(value: T)

  /** A Python exception: its class name and every class it is an instance of
      (the class itself and all of its bases). */
  datatype Exception = Exception(name: string, classes: set<string>)

  /** `isinstance(e, cls)`. */
  predicate IsInstance(e: Exception, cls: string)
  {
    cls in e.classes
  }

  /** `isinstance(e, classes)` where `classes` is a tuple of exception classes. */
  predicate IsInstanceOfAny(e: Exception, classes: seq<string>)
  {
    exists i :: 0 <= i < |classes| && classes[i] in e.classes
  }

  /** An exception whose class derives from `Exception` through the given bases. */
  function Standard(name: string, bases: set<string>): (e: Exception)
    ensures IsInstance(e, name) && IsInstance(e, "Exception") && IsInstance(e, "BaseException")
  {
    Exception(name, {name, "Exception", "BaseException"} + bases)
  }

  const KeyError := Standard("KeyError", {"LookupError"})
  const ValueError := Standard("ValueError", {})
  const RuntimeError := Standard("RuntimeError", {})
  const TimeoutError := Standard("TimeoutError", {"OSError"})
  const AssertionError := Standard("AssertionError", {})
  const AttributeError := Standard("AttributeError", {})
  const TypeError := Standard("TypeError", {})
  /** optuna's `TrialPruned`, derived from `OptunaError`. */
  const TrialPruned := Standard("TrialPruned", {"OptunaError"})
  /** The exception the distributed supervisor injects into a task it interrupts. */
  const WorkerInterrupted := Standard("WorkerInterrupted", {})
  /** Not an `Exception`: only `BaseException` catches it. */
  const KeyboardInterrupt := Exception("KeyboardInterrupt", {"KeyboardInterrupt", "BaseException"})

  /** An opaque payload: objective values, parameter values, attribute values and
      categorical choices. Floating point numbers are kept as reals. */
  datatype Value =
    | Real(x: real)
    | Int(n: int)
    | Text(s: string)
    | Flag(b: bool)
    | Null
    | Items(items: seq<Value>)
}
