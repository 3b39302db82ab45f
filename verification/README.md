# pwndbg `context` dashboard, modelled in Dafny

This project models the `context` command of pwndbg (`pwndbg/commands/context.py`).
gdb runs the command at every stop. It prints a legend line and then any of four
views, always in the order registers, code, stack, backtrace:

- **registers**: a banner, then one line per register the architecture names. The
  general-purpose registers come first, then the frame pointer and the stack pointer
  when the architecture has them, then `$pc`. Each line holds the register name,
  left-justified to four columns and upper-cased, a blank, and the formatted pointer chain.
- **code**: a banner, then blank rows up to eleven, then one row per instruction of the
  window decoded near `pc`. Each row holds the marker (` =>` for the instruction at
  `pc`, three blanks otherwise), a blank, the symbol annotation `<name> ` padded to the
  longest annotation of the window, the address in hexadecimal, a blank, and the
  coloured assembly.
- **stack**: a banner, then the telescope of the stack pointer.
- **backtrace**: a banner, then one line `f <i> <address> <name>` per frame. The walk
  starts at the selected frame and goes outwards for at most ten frames. Frames are
  numbered from 0, and a frame without a name is shown as `???`.

Views are chosen by the first character of each argument (`r`, `c`, `s`, `b`). No
arguments means all four.

Files:

- `Wrappers.dfy` holds `Option` and `Result`.
- `Strings.dfy` holds the Python string operations the command uses: `ljust`, `upper`,
  `hex`, and `str` of an integer.
- `Context.dfy` holds the model of the command.

What the command reads from the stopped process is a `Snapshot`: register names,
register values, `pc`, `sp`, the instruction window and the frame chain, innermost
first. The routines of other pwndbg modules that it calls are function-valued fields
of a `Host`: legend, banner, bold, pointer-chain formatting, symbol lookup, assembly
colouring, address formatting and telescope.

Each view is a method that builds its list step by step as the Python function does.
Each method is proved equal to a specification function (`RegsView`, `CodeView`,
`StackView`, `BacktraceView`, `Run`). The layout properties are lemmas about those
functions.

Two Python exceptions end the command before anything is printed. They are modelled
as `Err` results, not as preconditions:

- `EmptyToken`: an empty argument makes `a[0]` raise.
- `EmptyWindow`: an empty instruction window makes `max` over the annotations
  (context.py:71) raise. That aborts the whole command, including views already built.

Selection compares the first character exactly, so `Reg` selects nothing.

## Model

| member | source | states |
|---|---|---|
| Strings.LJust | pwndbg/commands/context.py:75 | `ljust` keeps the text at the front, pads with blanks up to the width and never truncates |
| Strings.Upper | pwndbg/commands/context.py:43 | `upper` keeps the length and maps every character through the ASCII upper-case map, so no lower-case letter remains |
| Strings.NatToString | pwndbg/commands/context.py:99 | `str(i)` of a frame index is a non-empty string of decimal digits, and a single digit for an index below ten |
| Strings.Hex | pwndbg/commands/context.py:82 | `hex(address)` is `0x` followed by at least one lower-case hexadecimal digit, without leading zeros, and the digits spell the address |
| Strings.HexInjective | pwndbg/commands/context.py:82 | different addresses are printed as different hexadecimal texts |
| Context.FormatRegisters | pwndbg/commands/context.py:36-45 | the loop over the slots yields one formatted line per register a slot holds, in slot order, skipping `None` slots |
| Context.ContextRegs | pwndbg/commands/context.py:33-46 | the banner followed by the lines for `gpr + (frame, stack, '$pc')` equals the register view |
| Context.PresentMember | pwndbg/commands/context.py:36-38 | a register is shown exactly when some slot names it: `None` slots are skipped and nothing else is dropped |
| Context.RegisterOrder | pwndbg/commands/context.py:36-38 | the registers shown are the general-purpose ones, then the frame pointer and the stack pointer when present, then `$pc`, in that order |
| Context.RegNameLayout | pwndbg/commands/context.py:43 | the shown name is at least four columns wide, begins with the upper-cased register name and is blank after it |
| Context.RegsViewLines | pwndbg/commands/context.py:35-45 | the register view is the banner and exactly one line per present register, in slot order, with line `1 + k` formatting register `k` |
| Context.Annotation | pwndbg/commands/context.py:65-67 | an absent symbol gives an empty annotation, and a present one gives `<`, the name and `> ` |
| Context.AnnotationsAt | pwndbg/commands/context.py:63-68 | annotation `i` is the annotation of the symbol at instruction `i`'s address |
| Context.Longest | pwndbg/commands/context.py:71 | the width is at least every annotation's length and equal to one of them |
| Context.AlignedUniform | pwndbg/commands/context.py:71-75 | after padding every annotation has the width of the longest one, begins with its own text and is blank after it |
| Context.NoSymbolsNoColumn | pwndbg/commands/context.py:63-75 | when no address has a symbol the annotation column has width zero and every padded annotation is empty |
| Context.RowsAt | pwndbg/commands/context.py:78-83 | row `i` formats instruction `i` with annotation `i`: exactly one row per instruction, in window order |
| Context.InstructionRowAt | pwndbg/commands/context.py:71-83 | instruction row `i` is instruction `i` with its own annotation padded to the longest annotation of the window |
| Context.FindSymbols | pwndbg/commands/context.py:63-68 | the lookup loop yields the annotation of every instruction, in order |
| Context.PadSymbols | pwndbg/commands/context.py:74-75 | the in-place padding loop leaves every annotation left-justified to the given width |
| Context.FormatRows | pwndbg/commands/context.py:78-83 | the formatting loop yields one row per instruction, in order, each with the marker, annotation, address and assembly |
| Context.ContextCode | pwndbg/commands/context.py:48-84 | the code view built step by step equals the code view, including the `EmptyWindow` error on an empty window |
| Context.CodeViewRows | pwndbg/commands/context.py:48-84 | the code view is the banner, `max(0, 11 - n)` empty rows and the `n` instruction rows, so `1 + max(0, 11 - n) + n` rows and never fewer than twelve |
| Context.CodeMarker | pwndbg/commands/context.py:80-82 | a row begins with ` =>` exactly when its instruction is at `pc`, and with three blanks exactly when it is not |
| Context.MarkedRows | pwndbg/commands/context.py:78-83 | the number of marked rows equals the number of instructions at `pc`: one if `pc` occurs once in the window, none if it does not occur |
| Context.CodeColumns | pwndbg/commands/context.py:71-83 | every row puts its annotation at column 4, blanks up to the width of the longest annotation, and the address at the same column in every row |
| Context.ContextStack | pwndbg/commands/context.py:86-91 | the stack view is the banner followed by the telescope of `sp` |
| Context.WalkShape | pwndbg/commands/context.py:96-102 | following `older()` with a budget gives `min(budget, chain length)` lines, numbered consecutively, one per frame in chain order |
| Context.ContextBacktrace | pwndbg/commands/context.py:93-103 | the bounded loop over `range(0, 10)` with `frame = frame.older()` yields the backtrace view |
| Context.BacktraceShape | pwndbg/commands/context.py:95-103 | the backtrace view is the banner and `min(10, chain length)` lines, where line `i` shows index `i` and frame `i`, with no gap and nothing after the chain ends |
| Context.FirstChars | pwndbg/commands/context.py:21 | reducing tokens to first characters fails exactly when some token is empty; otherwise it keeps the count and gives each token's first character |
| Context.SelectorChars | pwndbg/commands/context.py:21 | the comprehension `[a[0] for a in args]` computes the first characters, or fails at an empty token |
| Context.Assemble | pwndbg/commands/context.py:23-29 | starting from the legend, appending each selected view in the order r, c, s, b yields the report |
| Context.ContextCommand | pwndbg/commands/context.py:17-29 | the command's output for its arguments is the specified run: default selectors, first-character selection and fixed-order report |
| Context.DefaultSelectsAll | pwndbg/commands/context.py:18-21 | with no arguments the selectors are `r`, `c`, `s`, `b` |
| Context.DefaultReport | pwndbg/commands/context.py:17-29 | with no arguments the output is the legend, then the register, code, stack and backtrace views |
| Context.ReportDependsOnKinds | pwndbg/commands/context.py:23-29 | the report depends only on which of `r`, `c`, `s`, `b` are selected: token order, repetition and other characters change nothing |
| Context.RunOutcome | pwndbg/commands/context.py:17-29 | a successful output starts with the legend; it fails with `EmptyToken` exactly when an argument is empty, and with `EmptyWindow` exactly when the code view is selected over an empty window |
| Context.SingleSelector | pwndbg/commands/context.py:21-29 | one token shows only the view its first character names: `r`, `s` and `b` give the legend and that view, `c` gives the legend and the code view or the `EmptyWindow` error over an empty window, and any other first character, upper case included, gives only the legend |

## Left out

- The gdb frame API (`gdb.selected_frame`, `pc`, `name`, `older`) is replaced by a sequence of frames, innermost first. It is a live-process interface, so the model assumes the chain is finite and acyclic.
- `pwndbg.regs`, `pwndbg.disasm.near`, `pwndbg.disasm.color`, `pwndbg.symbol.get`, `pwndbg.chain.format`, `pwndbg.ui.banner`, `pwndbg.ui.addrsz`, `pwndbg.color.*` and `pwndbg.commands.telescope.telescope` are inputs of the model (`Snapshot` and `Host` fields). Their code is not part of this model.
- `pwndbg.vmmap.find(pc)` (line 56) is omitted. It only fills a cache in another module and does not change the output.
- The decorators `ParsedCommand`, `OnlyWhenRunning` and `events.stop` are omitted. They are command registration and event plumbing.
- The final `print` is omitted. The model returns the list of lines that would be joined with newlines and printed.
- Strings.Upper: models `str.upper` on ASCII letters only, because the register names it is applied to are ASCII.
- The loop of `context_regs` is the helper method `FormatRegisters`. The loops of `context_code` are split into the helper methods `FindSymbols`, `PadSymbols` and `FormatRows`, and the report assembly of `context` is the helper method `Assemble`. The order of the operations is unchanged.
- The telescope's lines are an input, so the stack view is modelled only as the banner followed by them.
- The backtrace of an empty frame chain is the banner alone. In pwndbg this input does not occur: `gdb.selected_frame()` (line 96) raises when there is no frame, and `OnlyWhenRunning` keeps the command from running without a process. The zero-frame case of `BacktraceShape` is a property of the model only.
