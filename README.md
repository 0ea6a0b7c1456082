# PPState: conditional-compilation state of the sonar-cxx preprocessor

The C/C++ preprocessor of sonar-cxx keeps one `PPState` per analysed file
tree. It is a last-in-first-out stack of `StateItem` frames, one per open
file: the root file at the bottom, the file currently being scanned on top.
Entering an `#include` pushes a default frame; reaching the end of that file
pops it. The `#if`/`#ifdef`/`#else`/`#endif` handling reads and writes three
fields of the top frame: `skipToken` (lines are being skipped), `condition`
(the outcome of the last evaluated condition) and `nestingDepth` (how many
conditionals are open inside a skipped branch).

This project models that class in Dafny and proves what its callers rely on.

- `pp_state_spec.dfy`, module `PPStateSpec`: the abstract state. A `Frame` is
  the value of one `StateItem`. A stack is a `seq<Frame>` in the deque's own
  order: index 0 is the top (`peek`), the last index is the bottom
  (`peekLast`). Each operation is a function on stacks, and a session is a
  sequence of `Op`s run by `Run`. The lemmas state the properties of sessions:
  frames below the ones a session works on are left untouched, the root file
  stays the context file, an include restores its includer exactly, and a
  balanced session ends with the root frame alone.
- `pp_state.dfy`, module `Preprocessor`: the classes. `StateItem` has the
  three mutable fields and the immutable file. `PPState` holds a sequence of
  `StateItem` references, which push and pop reassign. The setters change
  the top `StateItem` in place and may modify only that object
  (`modifies stack[0]`). Each method's contract ties the new abstract state
  `Frames()` to the old one through the function of `PPStateSpec` for that
  operation.

Files are a type parameter `F`: the model never looks inside a file handle.
`nestingDepth` is a Java `int`, so `changeNestingDepth` wraps around at 2^31
(`AddInt32`); `DepthWrapsAtIntMax` shows what that means at the limit.

On an empty stack, `ArrayDeque.pop` throws `NoSuchElementException`. `peek`
and `peekLast` return null, so every reader and setter throws
`NullPointerException`. The class methods state this as the precondition
`stack != []`. The session model `Step`/`Run` keeps it as an explicit
outcome: `None` is the exception.

The code does not enforce two rules a driver is expected to follow. First, it
does not stop the root frame from being popped: `PoppingRootEmptiesStack`
pops it and then fails on the next setter. Second, it does not keep
`nestingDepth` non-negative: `changeNestingDepth` takes any `int`. The model
follows the code here. The session lemmas therefore take "never pops the
root" (`StaysAbove`) as a hypothesis rather than as a guarantee.

## Model

| member | source | states |
|---|---|---|
| `PPStateSpec.AddInt32` | cxx-squid/src/main/java/org/sonar/cxx/preprocessor/PPState.java:77-79 | the Java `int` sum: congruent to the exact sum modulo 2^32, equal to it when it fits, negative when it overflows upwards |
| `PPStateSpec.Build` | cxx-squid/src/main/java/org/sonar/cxx/preprocessor/PPState.java:37-42 | a new session has exactly one frame; its file is the root file, which is both the context file and the file under analysis; it does not skip, its last condition reads as false, and its depth is 0 |
| `PPStateSpec.Push` | cxx-squid/src/main/java/org/sonar/cxx/preprocessor/PPState.java:52-55 | the stack grows by one; the new top frame is the default frame for the pushed file (values from lines 100-105); popping it gives back the old stack exactly; the context file is unchanged |
| `PPStateSpec.Pop` | cxx-squid/src/main/java/org/sonar/cxx/preprocessor/PPState.java:57-59 | needs a non-empty stack; the result is one shorter, and the old stack is the old top frame on top of it |
| `PPStateSpec.SetSkip` | cxx-squid/src/main/java/org/sonar/cxx/preprocessor/PPState.java:61-67 | afterwards the skip flag reads back as the value set; only the top frame's skip flag changes (same length, same frames below, same file, condition and depth on top) |
| `PPStateSpec.SetCondition` | cxx-squid/src/main/java/org/sonar/cxx/preprocessor/PPState.java:69-75 | afterwards "last condition was false" is the negation of the value set; only the top frame's condition changes |
| `PPStateSpec.ChangeDepth` | cxx-squid/src/main/java/org/sonar/cxx/preprocessor/PPState.java:77-79 | only the top frame's depth changes: it becomes the Java `int` sum of the old depth and `dir`, which is the exact sum whenever that fits |
| `PPStateSpec.EnterLeaveNestedBlock` | cxx-squid/src/main/java/org/sonar/cxx/preprocessor/PPState.java:77-83 | from a depth of at least 0, `+1` puts the file inside a nested block, and a following `-1` restores the stack exactly, so "inside" is then what it was before (false from depth 0) |
| `PPStateSpec.DepthWrapsAtIntMax` | cxx-squid/src/main/java/org/sonar/cxx/preprocessor/PPState.java:77-83 | at the largest `int` depth, `+1` wraps to the smallest `int` and the file no longer counts as inside a nested block |
| `PPStateSpec.Step` | cxx-squid/src/main/java/org/sonar/cxx/preprocessor/PPState.java:52-79 | one state-changing call fails exactly when the stack is empty and the call is not a push |
| `PPStateSpec.FramesBelowUntouched` | cxx-squid/src/main/java/org/sonar/cxx/preprocessor/PPState.java:52-79 | calls that never pop below the top frames `p` always succeed; they change the height by pushes minus pops; at least one frame stays above the frames under `p`, which end up exactly as they were |
| `PPStateSpec.ContextFileStable` | cxx-squid/src/main/java/org/sonar/cxx/preprocessor/PPState.java:44-46 | calls that never pop the bottom frame succeed, leave the stack non-empty with height changed by pushes minus pops, and leave the context file as it was |
| `PPStateSpec.IncludeRestoresIncluder` | cxx-squid/src/main/java/org/sonar/cxx/preprocessor/PPState.java:52-59 | push a file, run calls that stay inside it and are balanced, pop: the stack is exactly what it was, including the includer's flags and depth |
| `PPStateSpec.BalancedSessionEndsAtRoot` | cxx-squid/src/main/java/org/sonar/cxx/preprocessor/PPState.java:37-59 | from `build(root)`, balanced calls that never pop the root end with one frame, whose file is the root file |
| `PPStateSpec.PoppingRootEmptiesStack` | cxx-squid/src/main/java/org/sonar/cxx/preprocessor/PPState.java:57-63 | the code does not protect the root frame: popping it leaves an empty stack, and a setter after that fails |
| `Preprocessor.StateItem.constructor` | cxx-squid/src/main/java/org/sonar/cxx/preprocessor/PPState.java:100-105 | a new frame is for the given file, does not skip, has a false condition and depth 0 |
| `Preprocessor.PPState.constructor` | cxx-squid/src/main/java/org/sonar/cxx/preprocessor/PPState.java:31-35 | a new object has an empty stack; the source's constructor is private and used only by `build`, so callers reach an empty stack only by popping the root frame |
| `Preprocessor.PPState.Build` | cxx-squid/src/main/java/org/sonar/cxx/preprocessor/PPState.java:37-42 | returns a fresh state whose frames are `PPStateSpec.Build` of the root file, with a fresh frame object |
| `Preprocessor.PPState.GetContextFile` | cxx-squid/src/main/java/org/sonar/cxx/preprocessor/PPState.java:44-46 | returns the bottom frame's file |
| `Preprocessor.PPState.PushFileState` | cxx-squid/src/main/java/org/sonar/cxx/preprocessor/PPState.java:52-55 | the frames become `Push` of the old frames; the new top is a fresh object and the frame objects below are the old ones |
| `Preprocessor.PPState.PopFileState` | cxx-squid/src/main/java/org/sonar/cxx/preprocessor/PPState.java:57-59 | needs a non-empty stack; the frames become `Pop` of the old frames, and the frame objects left are the old ones below the top |
| `Preprocessor.PPState.SetSkipTokens` | cxx-squid/src/main/java/org/sonar/cxx/preprocessor/PPState.java:61-63 | modifies only the top frame object; the frames become `SetSkip` of the old frames |
| `Preprocessor.PPState.SkipTokens` | cxx-squid/src/main/java/org/sonar/cxx/preprocessor/PPState.java:65-67 | returns the top frame's skip flag |
| `Preprocessor.PPState.SetConditionValue` | cxx-squid/src/main/java/org/sonar/cxx/preprocessor/PPState.java:69-71 | modifies only the top frame object; the frames become `SetCondition` of the old frames |
| `Preprocessor.PPState.IfLastConditionWasFalse` | cxx-squid/src/main/java/org/sonar/cxx/preprocessor/PPState.java:73-75 | returns the negation of the top frame's condition |
| `Preprocessor.PPState.ChangeNestingDepth` | cxx-squid/src/main/java/org/sonar/cxx/preprocessor/PPState.java:77-79 | modifies only the top frame object; the frames become `ChangeDepth` of the old frames |
| `Preprocessor.PPState.IsInsideNestedBlock` | cxx-squid/src/main/java/org/sonar/cxx/preprocessor/PPState.java:81-83 | returns whether the top frame's depth is positive |
| `Preprocessor.PPState.GetFileUnderAnalysis` | cxx-squid/src/main/java/org/sonar/cxx/preprocessor/PPState.java:85-87 | returns the top frame's file |

## Left out

- Include resolution and file reading: `PPInclude` is not part of this model, so `findFile`, `getSourceCodeFile` and `getSourceCode` (search-path order, BOM detection, charset decoding) are not modelled. Include resolution and file reading lie outside this model.
- `getStack` (PPState.java:48-50) hands the mutable deque to its caller, who can then change it behind the state's back. The model offers only the read-only view `Frames()`.
- `getFileUnderAnalysisPath` (PPState.java:89-91): `File.getAbsolutePath` depends on the process's working directory, which lies outside the model.
- `Objects.requireNonNull` (PPState.java:38 and 53): Dafny values are never null, so these checks cannot fail.
- Preprocessor.PPState methods other than `PushFileState` require a non-empty stack. On an empty stack Java throws `NoSuchElementException` (pop) or `NullPointerException` (the setters and readers). For pop and the three setters that exception is the `None` outcome of `PPStateSpec.Step`. For the five readers (`GetContextFile`, `SkipTokens`, `IfLastConditionWasFalse`, `IsInsideNestedBlock`, `GetFileUnderAnalysis`) it is captured only by their precondition `stack != []`; `PPStateSpec.ContextFileStable` shows that every state reached from `Build` without popping the root meets it.
- Concurrency: none. A `PPState` is used by one preprocessing run on one thread.
