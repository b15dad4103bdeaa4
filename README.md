# OpenTESArena: INF loader, surfaces and OpenCL host logic in Dafny

This project models three pieces of OpenTESArena, an open-source engine
for The Elder Scrolls: Arena, and proves properties about them.

- **The `.INF` level-file loader** (`InfFile`, in `inf_file.dfy`).
  - A file is encrypted unless its name is one of five loose files.
  - An encrypted file is decoded in place. Each byte is XORed with a byte
    counter that wraps every 256 bytes plus an eight-byte key that repeats.
  - Carriage returns are removed.
  - The text is then read line by line by a small state machine.
    - `@FLOORS`, `@WALLS`, `@FLATS`, `@SOUND` and `@TEXT` headers switch
      the section; an unknown header stops loading.
    - Empty lines are skipped.
    - In the sound section each line becomes an entry: sound ID to the
      upper-cased file name. The first entry for an ID wins.
  - The sound table can be queried by ID.
- **Surfaces** (`Surfaces`, in `surface.dfy`).
  - A surface is a position, a visibility flag and a `width * height`
    array of 32-bit pixels, stored row by row.
  - `Outline` paints the border in place.
  - `RandomNoise` fills every pixel.
  - The setters change one field each.
- **The OpenCL renderer's host side** (`ClProgram`, in `cl_program.dfy`).
  - `ErrorString` is the status-code name table.
    - Code -11 (`CL_BUILD_PROGRAM_FAILURE`) shows the build log.
    - A code the table does not know is quoted as a number.
  - `Create` performs the constructor's sequence of status checks.
  - `GetDevices` accepts `CL_DEVICE_NOT_FOUND`.
  - The colour buffer has one `cl_int` per pixel.
  - `Render` copies the frame back into a surface.

Two support modules complete the project.

- `Wrappers` (`wrappers.dfy`) holds the `Option`, `Result` and `Outcome`
  types used for error paths.
- `Strings` (`strings.dfy`) defines the text helpers the loader calls.
  - `String::split` is a white-space split.
  - `String::toUppercase` is ASCII upper-casing.
  - `String::replace(text, "\r", "")` removes every carriage return.
  - `std::getline` splits text into lines.
  - `std::stoi` and `std::to_string` convert decimal integers.
  - `OpenTESArena/src/Utilities/String.cpp` is not part of this model. These
    definitions follow the C++ standard library and the way the loader
    uses them.

Where the source stops the program, the model returns a failure value instead:

| source | model |
|---|---|
| `DebugCrash` | `Failure(UnknownSection(..))` |
| `std::out_of_range` from `tokens.at(1)` | `Failure(MissingSoundField(..))` |
| a `std::stoi` exception | `Failure(BadSoundId(..))` |
| a failed `Debug::check` | `Failure(message)` / `Fail(message)`, with the source's message text |

## Model

| member | source | states |
|---|---|---|
| InfFile.IsEncrypted | OpenTESArena/src/Assets/INFFile.cpp:54 | a file counts as plain text only under one of the five loose names, all of which end in ".INF" |
| InfFile.EncryptedUnlessLoose | OpenTESArena/src/Assets/INFFile.cpp:15-22 | a file is encrypted exactly when its name is not CRYSTAL3.INF or IMPPAL1.INF to IMPPAL4.INF; the comparison is exact, so "crystal3.inf" counts as encrypted |
| InfFile.Crypt | OpenTESArena/src/Assets/INFFile.cpp:59-73 | the cipher keeps the length of its input |
| InfFile.CryptAt | OpenTESArena/src/Assets/INFFile.cpp:64-73 | byte i of the output is byte i of the input XOR ((i mod 256) + key[i mod 8]) mod 256 |
| InfFile.CryptInvolution | OpenTESArena/src/Assets/INFFile.cpp:68-73 | applying the cipher twice gives back the original bytes, so one routine both encrypts and decodes |
| InfFile.KeyStreamPeriod | OpenTESArena/src/Assets/INFFile.cpp:64-65 | the byte XORed in repeats every 256 positions: 8 divides 256, so counter and key realign |
| InfFile.CounterWrap | OpenTESArena/src/Assets/INFFile.cpp:70-71 | the key index kept modulo 8 and the 8-bit count advance like the position they track |
| InfFile.Decrypt | OpenTESArena/src/Assets/INFFile.cpp:64-73 | the in-place loop with its two wrapping counters leaves the buffer equal to the cipher of its old contents |
| InfFile.BytesToText | OpenTESArena/src/Assets/INFFile.cpp:78 | the text has one character per byte, with the byte's code |
| InfFile.PlainText | OpenTESArena/src/Assets/INFFile.cpp:54-81 | the text the parser reads contains no carriage return |
| InfFile.PlainTextOfUnencrypted | OpenTESArena/src/Assets/INFFile.cpp:15-22 | a file whose name is one of the five loose files reaches the parser byte for byte, minus carriage returns |
| InfFile.PlainTextOfEncrypted | OpenTESArena/src/Assets/INFFile.cpp:54-73 | any other name is decoded: an encrypted image of a plain text reaches the parser as that plain text |
| InfFile.Step | OpenTESArena/src/Assets/INFFile.cpp:119-183 | one line of the state machine: an empty line never fails; the mode changes only on an '@' line; the sound table changes only inside the sound section, which the line then stays in, and then by at most one entry |
| InfFile.ParseLines | OpenTESArena/src/Assets/INFFile.cpp:115-184 | the lines folded through Step from the floors section with no sounds, stopping at the first failure; a successful parse holds at most one sound per line |
| InfFile.ParseFailureSticks | OpenTESArena/src/Assets/INFFile.cpp:150-152 | once a line has stopped the parser, later lines do not change the outcome |
| InfFile.ParseText | OpenTESArena/src/Assets/INFFile.cpp:113-184 | the getline loop that updates the mode and the sound table computes exactly the fold of Step over the lines |
| InfFile.StepEmptyLine | OpenTESArena/src/Assets/INFFile.cpp:119-123 | an empty line leaves mode and sounds unchanged |
| InfFile.StepSectionHeader | OpenTESArena/src/Assets/INFFile.cpp:128-155 | a line whose first word is one of the five headers switches to that section and keeps the sounds, whatever follows the header |
| InfFile.StepFlatsNoShow | OpenTESArena/src/Assets/INFFile.cpp:139-146 | "@FLATS NOSHOW" selects the flats section |
| InfFile.StepUnknownSection | OpenTESArena/src/Assets/INFFile.cpp:149-152 | an '@' line whose first word is not a header stops loading and reports that word |
| InfFile.StepIgnoredSection | OpenTESArena/src/Assets/INFFile.cpp:159-170 | in the floors, walls, flats and text sections an ordinary line changes nothing |
| InfFile.StepSoundMissingField | OpenTESArena/src/Assets/INFFile.cpp:174-176 | in the sound section a line with fewer than two words is an error |
| InfFile.StepSoundEntry | OpenTESArena/src/Assets/INFFile.cpp:171-179 | "name id ..." in the sound section adds id to the upper-cased name unless id is already present, in which case the table is unchanged |
| InfFile.SplitEntry | OpenTESArena/src/Assets/INFFile.cpp:174-176 | a sound line splits into its name and number first |
| InfFile.ParseStartsInFloors | OpenTESArena/src/Assets/INFFile.cpp:115 | parsing starts in the floors section with an empty sound table |
| InfFile.StepExtends | OpenTESArena/src/Assets/INFFile.cpp:178 | no line removes or replaces a sound entry |
| InfFile.ParseLinesExtends | OpenTESArena/src/Assets/INFFile.cpp:117-184 | the sound table after a prefix of the lines is kept by the rest: the first entry for an ID wins |
| InfFile.ParseLinesUppercase | OpenTESArena/src/Assets/INFFile.cpp:175 | every name in the sound table is in upper case |
| InfFile.NoSoundHeaderNoSounds | OpenTESArena/src/Assets/INFFile.cpp:115-179 | without a "@SOUND" header the parser never enters the sound section and collects no sounds |
| InfFile.Decode | OpenTESArena/src/Assets/INFFile.cpp:41-185 | the constructor as a value: it succeeds exactly when the lines of the decoded, carriage-return-free text parse, holds that parse's sound table, and keeps the ceiling defaults (height 100, unknown 0, not an outdoor dungeon) |
| InfFile.Load | OpenTESArena/src/Assets/INFFile.cpp:41-185 | the constructor: decode in place when encrypted, remove carriage returns, run the parser; the result is Decode's, and the ceiling data keep their defaults (height 100, unknown 0, not an outdoor dungeon) |
| InfFile.GetSound | OpenTESArena/src/Assets/INFFile.cpp:212-215 | an ID yields its stored name exactly when it is in the table, and is an error otherwise |
| InfFile.GetSoundUppercase | OpenTESArena/src/Assets/INFFile.cpp:212-215 | every sound name a loaded file hands out is in upper case, as the parser stored it |
| Strings.Split | OpenTESArena/src/Assets/INFFile.cpp:140 | every token is non-empty and free of white space; a line starting with a non-space yields its leading run as first token |
| Strings.SplitLeadingWord | OpenTESArena/src/Assets/INFFile.cpp:140 | a word followed by white space or the end is peeled off as the first token |
| Strings.SplitJoinWords | OpenTESArena/src/Assets/INFFile.cpp:174 | splitting the blank-joined tokens gives the tokens back |
| Strings.ToUpper | OpenTESArena/src/Assets/INFFile.cpp:175 | same length, no lower-case letter remains, lower-case letters move up by 32, all other characters are unchanged |
| Strings.ToUpperIdempotent | OpenTESArena/src/Assets/INFFile.cpp:175 | upper-casing twice is upper-casing once |
| Strings.RemoveChar | OpenTESArena/src/Assets/INFFile.cpp:81 | the result holds no carriage return and is no longer than the input |
| Strings.RemoveCharCounts | OpenTESArena/src/Assets/INFFile.cpp:81 | every other character occurs as often as before |
| Strings.RemoveCharAppend | OpenTESArena/src/Assets/INFFile.cpp:81 | removal works piecewise over concatenation, so surviving characters keep their order |
| Strings.RemoveCharAbsent | OpenTESArena/src/Assets/INFFile.cpp:81 | text without carriage returns passes unchanged |
| Strings.RemoveCharIdempotent | OpenTESArena/src/Assets/INFFile.cpp:81 | removing twice is removing once |
| Strings.Lines | OpenTESArena/src/Assets/INFFile.cpp:117 | no extracted line contains a newline |
| Strings.UnlinesLines | OpenTESArena/src/Assets/INFFile.cpp:117 | the lines written back with newlines give the text, plus a newline if its last line had none |
| Strings.LinesUnlines | OpenTESArena/src/Assets/INFFile.cpp:117 | newline-free lines written out and read back are the same lines |
| Strings.Stoi | OpenTESArena/src/Assets/INFFile.cpp:176 | a successful parse is within the 32-bit int range |
| Strings.NatToDigits | OpenTESArena/src/Rendering/CLProgram.cpp:201 | the digits read back as the number |
| Strings.StoiIntToString | OpenTESArena/src/Assets/INFFile.cpp:176 | std::stoi reads back every int std::to_string writes |
| Strings.IntToStringIsWord | OpenTESArena/src/Assets/INFFile.cpp:174-176 | a written int is one white-space-free token |
| Strings.IntToStringInjective | OpenTESArena/src/Rendering/CLProgram.cpp:201 | different ints are written differently |
| Surfaces.PixelIndexInRange | OpenTESArena/src/Interface/Surface.cpp:233-241 | every in-bounds coordinate maps to an index in [0, width*height) |
| Surfaces.IndexCoordinates | OpenTESArena/src/Interface/Surface.cpp:230-242 | the flat index x + y*width gives back x and y |
| Surfaces.Outlined | OpenTESArena/src/Interface/Surface.cpp:221-243 | the outlined pixels have the length of the original |
| Surfaces.OutlinedAt | OpenTESArena/src/Interface/Surface.cpp:230-242 | after outlining, a pixel in row 0, row height-1, column 0 or column width-1 has the colour, and every interior pixel is unchanged |
| Surfaces.OutlinedIdempotent | OpenTESArena/src/Interface/Surface.cpp:221-243 | outlining twice with one colour is outlining once |
| Surfaces.Surface.constructor | OpenTESArena/src/Interface/Surface.cpp:15-27 | needs width > 0 and height > 0; the surface is visible at (x, y) with a fresh width*height pixel array |
| Surfaces.Surface.OfSize | OpenTESArena/src/Interface/Surface.cpp:29-30 | the same at (0, 0) |
| Surfaces.Surface.RandomNoise | OpenTESArena/src/Interface/Surface.cpp:110-121 | a fresh visible surface at (0, 0) whose pixel i is the i-th colour drawn, for every i < width*height |
| Surfaces.Surface.SetX | OpenTESArena/src/Interface/Surface.cpp:165-168 | x takes the new value; y and visibility do not change |
| Surfaces.Surface.SetY | OpenTESArena/src/Interface/Surface.cpp:170-173 | y takes the new value; x and visibility do not change |
| Surfaces.Surface.SetVisibility | OpenTESArena/src/Interface/Surface.cpp:175-178 | the flag takes the new value; the position does not change |
| Surfaces.Surface.Outline | OpenTESArena/src/Interface/Surface.cpp:221-243 | the two in-place loops (rows, then columns without the corners) leave exactly the outlined pixels of the old contents |
| ClProgram.ErrorName | OpenTESArena/src/Rendering/CLProgram.cpp:132-200 | a code has a fixed name exactly when it is 0 to -19 except -11, -30 to -68, or -1000 to -1005 |
| ClProgram.ErrorString | OpenTESArena/src/Rendering/CLProgram.cpp:127-203 | -11 gives the build log; a named code gives its name; any other code gives Unknown OpenCL error "n" |
| ClProgram.ErrorStringSuccess | OpenTESArena/src/Rendering/CLProgram.cpp:132 | 0 is reported as "CL_SUCCESS" |
| ClProgram.NamesRoundTrip | OpenTESArena/src/Rendering/CLProgram.cpp:132-200 | looking a code's name up in the reverse table gives back the code |
| ClProgram.CodeOfNameSound | OpenTESArena/src/Rendering/CLProgram.cpp:132-200 | a name the reverse table accepts is the name of the code it returns |
| ClProgram.NamesDistinct | OpenTESArena/src/Rendering/CLProgram.cpp:132-200 | no two listed codes share a name |
| ClProgram.NamesEndInCapital | OpenTESArena/src/Rendering/CLProgram.cpp:132-200 | every name ends in a capital letter |
| ClProgram.UnknownError | OpenTESArena/src/Rendering/CLProgram.cpp:201 | the fallback message starts with the prefix, is longer than prefix plus quote, and ends with a double quote |
| ClProgram.UnknownCodeQuoted | OpenTESArena/src/Rendering/CLProgram.cpp:201 | an unlisted code gives the prefix, the decimal number and a closing quote, and the quoted number reads back as the code |
| ClProgram.UnknownIsNoName | OpenTESArena/src/Rendering/CLProgram.cpp:132-201 | the message for an unlisted code is never a listed name |
| ClProgram.ErrorStringInjective | OpenTESArena/src/Rendering/CLProgram.cpp:127-203 | apart from -11, different codes always give different text |
| ClProgram.GetDevices | OpenTESArena/src/Rendering/CLProgram.cpp:104-114 | succeeds exactly for CL_SUCCESS (the devices found) and CL_DEVICE_NOT_FOUND (no devices); any other status fails |
| ClProgram.ColorBufferBytes | OpenTESArena/src/Rendering/CLProgram.cpp:69-70 | the colour buffer is a whole number of cl_ints, exactly one per pixel, and holds at least one for a non-empty frame |
| ClProgram.Create | OpenTESArena/src/Rendering/CLProgram.cpp:20-72 | needs width > 0 and height > 0; on success the program has the configured size, the first GPU device, a 16-byte direction buffer and a 4*width*height-byte colour buffer, and the kernel named "test" |
| ClProgram.CreateSucceedsIff | OpenTESArena/src/Rendering/CLProgram.cpp:33-71 | construction succeeds exactly when every device call succeeds and a platform and a GPU device exist |
| ClProgram.NoGpuDeviceRejected | OpenTESArena/src/Rendering/CLProgram.cpp:36-37 | CL_DEVICE_NOT_FOUND is tolerated by the device query and then rejected with "No OpenCL device found." |
| ClProgram.BuildFailureShowsLog | OpenTESArena/src/Rendering/CLProgram.cpp:58-60 | a failed build (code -11) reports the build log inside its message |
| ClProgram.ReadBackBytes | OpenTESArena/src/Rendering/CLProgram.cpp:242-243 | the byte count read back each frame is the size the colour buffer was created with |
| ClProgram.ReadBackFillsDestination | OpenTESArena/src/Rendering/CLProgram.cpp:242-243 | the bytes read back equal the colour buffer's size, which is four bytes per destination pixel |
| ClProgram.Render | OpenTESArena/src/Rendering/CLProgram.cpp:228-245 | needs the destination's size to be the configured one; passes exactly when all three device calls succeed, then the destination holds the kernel's output; a failure reports the message of the first call that failed (enqueueNDRangeKernel, finish or enqueueReadBuffer) and leaves the destination as it was |

## Left out

- Opening and reading the file through the virtual file system (INFFile.cpp:43-51) is I/O. The loader takes the file name and its bytes as inputs.
- `DebugMention` logging (INFFile.cpp:147) is output only.
- The declared texture, box-cap, box-side, text and item-list tables and their getters (INFFile.cpp:192-220, except `getSound`) are not modelled: the constructor shown never fills them.
- `FlatData`'s default (INFFile.cpp:34-39) is the constant `InfFile.DefaultFlat`; nothing in the constructor uses it.
- Strings.Split: `String::split` is not part of this model. It is defined as a split on C `isspace` white space.
- Strings.ToUpper: the upper-casing is ASCII only, as in the C locale.
- Strings.Stoi: `std::stoi` is modelled for base 10 with the standard's skipping of leading white space, its optional sign and its range check. Exceptions become failures.
- A sound line made of white space only has no tokens; the source then reads the front of an empty vector, which is undefined behaviour. The model reports it as a missing field.
- `char` is taken as unsigned: each byte becomes the character with the same code 0-255.
- All SDL calls are foreign: creating, converting and optimizing surfaces, `fill`, `fillRect`, `setTransparentColor`, `blit`, `blitScaled` and `SDL_MapRGBA`. `Outline` takes the mapped colour as a 32-bit input.
- The constructors that copy an existing `SDL_Surface` (Surface.cpp:32-43, 65-66 and the copy constructor at 68-69) are not modelled: they take the size from the given surface and consist of a foreign SDL creation call and an `SDL_memcpy`.
- The scaling constructor (Surface.cpp:45-63) is not modelled: it computes the blit size from a `double` scale factor, which is floating point, and then calls `SDL_BlitScaled`.
- `containsPoint` depends on `Rect::contains`, which is not part of this model.
- `Color::randomRGB` and `Random` are not part of this model. `RandomNoise` takes the sequence of generated colours as a function of the pixel index.
- Surfaces.Surface: the pixel array is taken to have no row padding (pitch equal to four bytes times the width), which the source's flat indexing also assumes.
- OpenCL device plumbing is foreign device I/O. Platform and device discovery, context, queue, program build, kernel and buffer creation, `setArg`, kernel launch, `finish` and buffer transfers are modelled only by the status codes they return, given as inputs. The kernel's output is also an input.
- `updateDirection` packs `cl_float` values, which is floating point; it is not modelled.
- The `#define` header built for the kernel source uses `std::to_string(double)` for `ASPECT_RATIO`, which is floating-point formatting; it is not modelled, and neither is reading the kernel file.
- ClProgram.Render: a failed read-back is modelled as leaving the destination unchanged; the real device may have written part of it.
- Concurrency between the host and the OpenCL device is not modelled: `finish` is a status code.
