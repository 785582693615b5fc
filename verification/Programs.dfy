/** Optional values, shared by every module. */
module Common {
  datatype Option<+T> = None | Some(value: T)
}

/**
 The timed function as its author wrote it, with no preemption anywhere: the
 reference that slicing has to be invisible against.

 A program's local state (registers, stack, heap) is one integer, which can code
 any countable state.  Its own code sees that state and `errno`; a
 nonpreemptible library call sees the state and the library's own `errno`, which
 it writes before it reads.
 */
module Programs {
  /** How a function ends: a value, or a panic caught by catch_unwind(). */
  datatype Outcome = Value(value: int) | Panic(payload: int)

  datatype Action =
    | Compute(regs: int, errno: int)
    | CallLibrary(regs: int, errno: int)
    | CallPause(regs: int)
    | Finish(outcome: Outcome)

  datatype LibraryAction =
    | Work(regs: int, errno: int)
    | Return(regs: int)

  datatype Program = Program(
    entry: int,
    own: (int, int) -> Action,
    library: (int, int) -> LibraryAction)

  datatype Where = Own | InLibrary | InPause | Ended(outcome: Outcome)

  /** Everything the function can observe.  `libraryErrno` is 0 outside library calls. */
  datatype View = View(at: Where, regs: int, errno: int, libraryErrno: int)

  function Start(p: Program, errno: int): View {
    View(Own, p.entry, errno, 0)
  }

  /** One step of the function running alone; calling pause() just returns. */
  function Advance(p: Program, v: View): View {
    match v.at
    case Own => (
      match p.own(v.regs, v.errno)
      case Compute(regs, errno) => View(Own, regs, errno, 0)
      case CallLibrary(regs, errno) => View(InLibrary, regs, v.errno, errno)
      case CallPause(regs) => View(InPause, regs, v.errno, 0)
      case Finish(outcome) => View(Ended(outcome), v.regs, v.errno, 0))
    case InLibrary => (
      match p.library(v.regs, v.libraryErrno)
      case Work(regs, errno) => View(InLibrary, regs, v.errno, errno)
      case Return(regs) => View(Own, regs, v.errno, 0))
    case InPause => View(Own, v.regs, v.errno, 0)
    case Ended(_) => v
  }

  /** The first `n` steps of the uninterrupted run. */
  function Uninterrupted(p: Program, errno: int, n: nat): View {
    if n == 0 then Start(p, errno) else Advance(p, Uninterrupted(p, errno, n - 1))
  }
}
