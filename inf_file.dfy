/**
 * The .INF level-description file: the decision whether a file is
 * encrypted, the rolling-XOR decoder, carriage-return removal, and the
 * line-driven section parser that collects the sound table.
 */
module InfFile {
  import opened Wrappers
  import opened Strings

  // ---------------------------------------------------------------------
  // Encryption
  // ---------------------------------------------------------------------

  /** The .INF files shipped loose in the game directory; these are stored in plain text. */
  const UnencryptedInfs: set<string> :=
    {"CRYSTAL3.INF", "IMPPAL1.INF", "IMPPAL2.INF", "IMPPAL3.INF", "IMPPAL4.INF"}

  /** A file is encrypted unless its name, compared exactly, is one of the loose files. */
  predicate IsEncrypted(filename: string): (r: bool)
    ensures !r ==> |filename| >= 11 && filename[|filename| - 4..] == ".INF"
  {
    filename !in UnencryptedInfs
  }

  /**
   * The five loose files, named one by one, are the only plain-text ones;
   * the comparison is exact, so a lower-case spelling counts as encrypted.
   */
  lemma EncryptedUnlessLoose(filename: string)
    ensures !IsEncrypted(filename) <==>
      filename == "CRYSTAL3.INF" || filename == "IMPPAL1.INF" || filename == "IMPPAL2.INF" ||
      filename == "IMPPAL3.INF" || filename == "IMPPAL4.INF"
    ensures IsEncrypted("crystal3.inf")
  {
  }

  /** The repeating eight-byte key. */
  const EncryptionKeys: seq<bv8> := [0xEA, 0x7B, 0x4E, 0xBD, 0x19, 0xC9, 0x38, 0x99]

  /** The byte XORed in for a given count and key byte: their sum, truncated to 8 bits. */
  function KeyByte(count: int, key: bv8): bv8 {
    ((count + key as int) % 256) as bv8
  }

  /**
   * The byte XORed into position i: a counter that wraps every 256 bytes
   * plus the key byte that repeats every 8 bytes.
   */
  function KeyStream(i: nat): bv8 {
    KeyByte(i % 256, EncryptionKeys[i % 8])
  }

  /** The whole cipher as a value: byte i is XORed with KeyStream(i). */
  function Crypt(data: seq<bv8>): (r: seq<bv8>)
    ensures |r| == |data|
  {
    seq(|data|, i requires 0 <= i < |data| => data[i] ^ KeyStream(i))
  }

  /** Byte i of the cipher's output depends on byte i of its input and on i alone. */
  lemma CryptAt(data: seq<bv8>, i: nat)
    requires i < |data|
    ensures Crypt(data)[i] == data[i] ^ KeyByte(i % 256, EncryptionKeys[i % 8])
  {
  }

  /** The cipher is its own inverse, so one routine both encrypts and decrypts. */
  lemma CryptInvolution(data: seq<bv8>)
    ensures Crypt(Crypt(data)) == data
  {
    var twice := Crypt(Crypt(data));
    forall i | 0 <= i < |data|
      ensures twice[i] == data[i]
    {
      var k := KeyStream(i);
      assert twice[i] == (data[i] ^ k) ^ k;
    }
  }

  /** The key stream repeats every 256 bytes, since 8 divides 256. */
  lemma KeyStreamPeriod(i: nat)
    ensures KeyStream(i + 256) == KeyStream(i)
  {
    CountersPeriod(i);
  }

  /** Both counters return to their values after 256 bytes. */
  lemma CountersPeriod(i: nat)
    ensures (i + 256) % 256 == i % 256
    ensures (i + 256) % 8 == i % 8
  {
  }

  /**
   * Decodes the buffer in place, keeping the key index and the byte count as
   * the counters the loader keeps: the key index wraps every 8 bytes and the
   * 8-bit count every 256.
   */
  method Decrypt(data: array<bv8>)
    modifies data
    ensures data[..] == Crypt(old(data[..]))
  {
    var keyIndex := 0;
    var count := 0;
    var i := 0;
    while i < data.Length
      invariant 0 <= i <= data.Length
      invariant keyIndex == i % 8
      invariant count == i % 256
      invariant forall k :: 0 <= k < i ==> data[k] == old(data[k]) ^ KeyStream(k)
      invariant forall k :: i <= k < data.Length ==> data[k] == old(data[k])
    {
      CounterWrap(i);
      data[i] := data[i] ^ KeyByte(count, EncryptionKeys[keyIndex]);
      keyIndex := (keyIndex + 1) % |EncryptionKeys|;
      count := (count + 1) % 256;
      i := i + 1;
    }
  }

  /** The key index and the count, kept modulo 8 and 256, advance like the position they count. */
  lemma CounterWrap(i: nat)
    ensures (i % 8 + 1) % 8 == (i + 1) % 8
    ensures (i % 256 + 1) % 256 == (i + 1) % 256
  {
  }

  // ---------------------------------------------------------------------
  // From bytes to text
  // ---------------------------------------------------------------------

  /** Each byte becomes the character with the same code, NUL bytes included. */
  function BytesToText(data: seq<bv8>): (text: string)
    ensures |text| == |data|
    ensures forall i :: 0 <= i < |data| ==> text[i] as int == data[i] as int
  {
    seq(|data|, i requires 0 <= i < |data| => (data[i] as int) as char)
  }

  /** The text the parser reads: decoded when the file is encrypted, then stripped of carriage returns. */
  function PlainText(filename: string, data: seq<bv8>): (text: string)
    ensures '\r' !in text
  {
    var decoded := if IsEncrypted(filename) then Crypt(data) else data;
    RemoveChar(BytesToText(decoded), '\r')
  }

  /** A loose (unencrypted) file reaches the parser byte for byte, minus its carriage returns. */
  lemma PlainTextOfUnencrypted(filename: string, data: seq<bv8>)
    requires filename in UnencryptedInfs
    ensures PlainText(filename, data) == RemoveChar(BytesToText(data), '\r')
  {
  }

  /** An encrypted file's bytes are exactly the cipher applied to its plain bytes. */
  lemma PlainTextOfEncrypted(filename: string, plain: seq<bv8>)
    requires IsEncrypted(filename)
    ensures PlainText(filename, Crypt(plain)) == RemoveChar(BytesToText(plain), '\r')
  {
    CryptInvolution(plain);
  }

  // ---------------------------------------------------------------------
  // The section parser
  // ---------------------------------------------------------------------

  /** Which '@' section is being read. */
  datatype ParseMode = Floors | Walls | Flats | Sound | Text

  /** The recognised section headers. */
  const Sections: map<string, ParseMode> :=
    map["@FLOORS" := Floors, "@WALLS" := Walls, "@FLATS" := Flats, "@SOUND" := Sound, "@TEXT" := Text]

  /** Why loading stops. */
  datatype InfError =
    | UnknownSection(token: string)                  // an '@' header that names no section
    | MissingSoundField(line: string)                // a sound line with fewer than two fields
    | BadSoundId(token: string, reason: StoiError)   // a sound ID that is not a decimal int

  /** The parser's state between lines: the current mode and the sound table so far. */
  datatype ParseState = ParseState(mode: ParseMode, sounds: map<int, string>)

  const InitialState: ParseState := ParseState(Floors, map[])

  /** One line of the file applied to the parser state. */
  function Step(st: ParseState, line: string): (r: Result<ParseState, InfError>)
    ensures r.Failure? ==> line != []
    ensures r.Success? && r.value.mode != st.mode ==> line != [] && line[0] == '@'
    ensures r.Success? && r.value.sounds != st.sounds ==> st.mode == Sound && r.value.mode == Sound
    ensures r.Success? ==> |r.value.sounds| <= |st.sounds| + 1
  {
    if line == [] then Success(st)
    else if line[0] == '@' then
      var token := Split(line)[0];
      if token in Sections then Success(st.(mode := Sections[token]))
      else Failure(UnknownSection(token))
    else if st.mode == Sound then
      var tokens := Split(line);
      if |tokens| < 2 then Failure(MissingSoundField(line))
      else
        match Stoi(tokens[1])
        case Failure(e) => Failure(BadSoundId(tokens[1], e))
        case Success(id) =>
          // Inserting an ID that is already present leaves the table as it is.
          if id in st.sounds then Success(st)
          else Success(st.(sounds := st.sounds[id := ToUpper(tokens[0])]))
    else Success(st)
  }

  /** The lines applied in order from the initial state; the first failure ends parsing. */
  function ParseLines(lines: seq<string>): (r: Result<ParseState, InfError>)
    ensures r.Success? ==> |r.value.sounds| <= |lines|
    decreases |lines|
  {
    if lines == [] then Success(InitialState)
    else
      match ParseLines(lines[..|lines| - 1])
      case Failure(e) => Failure(e)
      case Success(st) => Step(st, lines[|lines| - 1])
  }

  /** The sound table of a whole text, or the reason it cannot be read. */
  function SoundsOf(text: string): Result<map<int, string>, InfError> {
    match ParseLines(Lines(text))
    case Failure(e) => Failure(e)
    case Success(st) => Success(st.sounds)
  }

  /** Once parsing has failed, further lines do not change the failure. */
  lemma {:induction false} ParseFailureSticks(lines: seq<string>, n: nat)
    requires n <= |lines|
    requires ParseLines(lines[..n]).Failure?
    ensures ParseLines(lines) == ParseLines(lines[..n])
    decreases |lines| - n
  {
    if n < |lines| {
      var next := lines[..n + 1];
      assert next[..|next| - 1] == lines[..n];
      ParseFailureSticks(lines, n + 1);
    } else {
      assert lines[..n] == lines;
    }
  }

  /**
   * Reads the decoded text line by line, switching mode on section headers
   * and collecting the sound table.
   */
  method ParseText(text: string) returns (r: Result<map<int, string>, InfError>)
    ensures r == SoundsOf(text)
  {
    var lines := Lines(text);
    var mode := Floors;
    var sounds: map<int, string> := map[];
    var i := 0;
    while i < |lines|
      invariant 0 <= i <= |lines|
      invariant ParseLines(lines[..i]) == Success(ParseState(mode, sounds))
    {
      var line := lines[i];
      assert lines[..i + 1][..i] == lines[..i];
      if |line| == 0 {
        i := i + 1;
        continue;
      }
      if line[0] == '@' {
        var token := Split(line)[0];
        if token in Sections {
          mode := Sections[token];
        } else {
          ParseFailureSticks(lines, i + 1);
          return Failure(UnknownSection(token));
        }
        i := i + 1;
        continue;
      }
      if mode == Sound {
        var tokens := Split(line);
        if |tokens| < 2 {
          ParseFailureSticks(lines, i + 1);
          return Failure(MissingSoundField(line));
        }
        var filename := ToUpper(tokens[0]);
        var parsed := Stoi(tokens[1]);
        if parsed.Failure? {
          ParseFailureSticks(lines, i + 1);
          return Failure(BadSoundId(tokens[1], parsed.error));
        }
        if parsed.value !in sounds {
          sounds := sounds[parsed.value := filename];
        }
      }
      i := i + 1;
    }
    assert lines[..i] == lines;
    return Success(sounds);
  }

  // ---------------------------------------------------------------------
  // What the parser does, line by line
  // ---------------------------------------------------------------------

  /** An empty line changes nothing. */
  lemma StepEmptyLine(st: ParseState)
    ensures Step(st, "") == Success(st)
  {
  }

  /**
   * A header naming a section switches to that section's mode, whatever
   * words follow it on the line (as in "@FLATS NOSHOW"); the sound table
   * is untouched.
   */
  lemma StepSectionHeader(st: ParseState, header: string, rest: string)
    requires header in Sections
    requires rest == [] || IsSpace(rest[0])
    ensures Step(st, header + rest) == Success(ParseState(Sections[header], st.sounds))
  {
    assert header[0] == '@';
    assert IsWord(header);
    SplitLeadingWord(header, rest);
  }

  /** "@FLATS NOSHOW" selects the flats section. */
  lemma StepFlatsNoShow(st: ParseState)
    ensures Step(st, "@FLATS NOSHOW") == Success(st.(mode := Flats))
  {
    assert "@FLATS NOSHOW" == "@FLATS" + " NOSHOW";
    StepSectionHeader(st, "@FLATS", " NOSHOW");
  }

  /** A header whose first word names no section stops the parser with that word. */
  lemma StepUnknownSection(st: ParseState, line: string)
    requires line != [] && line[0] == '@'
    requires line[..WordLength(line)] !in Sections
    ensures Step(st, line) == Failure(UnknownSection(line[..WordLength(line)]))
  {
  }

  /** In the floors, walls, flats and text sections an ordinary line changes nothing. */
  lemma StepIgnoredSection(st: ParseState, line: string)
    requires st.mode != Sound
    requires line == [] || line[0] != '@'
    ensures Step(st, line) == Success(st)
  {
  }

  /** In the sound section a line with fewer than two fields is an error. */
  lemma StepSoundMissingField(st: ParseState, line: string)
    requires st.mode == Sound
    requires line != [] && line[0] != '@'
    requires |Split(line)| < 2
    ensures Step(st, line) == Failure(MissingSoundField(line))
  {
  }

  /**
   * In the sound section "NAME ID ..." adds ID with NAME in upper case,
   * unless ID is already present: the first line naming an ID wins.
   */
  lemma StepSoundEntry(st: ParseState, name: string, id: int, rest: string)
    requires st.mode == Sound
    requires IsWord(name) && name[0] != '@'
    requires InIntRange(id)
    requires rest == [] || IsSpace(rest[0])
    ensures Step(st, name + " " + IntToString(id) + rest) ==
            Success(if id in st.sounds then st else st.(sounds := st.sounds[id := ToUpper(name)]))
  {
    var number := IntToString(id);
    IntToStringIsWord(id);
    SplitEntry(name, number, rest);
    StoiIntToString(id);
  }

  /** A word, a space, a second word and a rest starting with a space split into the two words first. */
  lemma SplitEntry(name: string, number: string, rest: string)
    requires IsWord(name) && IsWord(number)
    requires rest == [] || IsSpace(rest[0])
    ensures Split(name + " " + number + rest) == [name, number] + Split(rest)
  {
    var tail := " " + (number + rest);
    ConcatRight(name, " ", number, rest);
    SplitLeadingWord(name, tail);
    SplitLeadingSpace(number + rest);
    SplitLeadingWord(number, rest);
  }

  // ---------------------------------------------------------------------
  // What the parser does over a whole file
  // ---------------------------------------------------------------------

  /** Parsing starts in the floors section with no sounds. */
  lemma ParseStartsInFloors()
    ensures ParseLines([]) == Success(ParseState(Floors, map[]))
  {
  }

  /** A map extends another when it keeps every entry of it. */
  predicate Extends(bigger: map<int, string>, smaller: map<int, string>) {
    forall id :: id in smaller ==> id in bigger && bigger[id] == smaller[id]
  }

  /** One line never removes or replaces a sound entry. */
  lemma StepExtends(st: ParseState, line: string)
    requires Step(st, line).Success?
    ensures Extends(Step(st, line).value.sounds, st.sounds)
  {
  }

  /**
   * The sound table only grows while a file is read: an ID keeps the name
   * of the first line that gave it one.
   */
  lemma {:induction false} ParseLinesExtends(lines: seq<string>, n: nat)
    requires n <= |lines|
    requires ParseLines(lines).Success?
    ensures ParseLines(lines[..n]).Success?
    ensures Extends(ParseLines(lines).value.sounds, ParseLines(lines[..n]).value.sounds)
    decreases |lines| - n
  {
    if n == |lines| {
      assert lines[..n] == lines;
    } else {
      var front := lines[..|lines| - 1];
      assert lines[..n] == front[..n];
      ParseLinesExtends(front, n);
      StepExtends(ParseLines(front).value, lines[|lines| - 1]);
    }
  }

  /** Every name in the sound table is in upper case. */
  lemma {:induction false} ParseLinesUppercase(lines: seq<string>)
    requires ParseLines(lines).Success?
    ensures forall id :: id in ParseLines(lines).value.sounds ==> NoLower(ParseLines(lines).value.sounds[id])
    decreases |lines|
  {
    if lines != [] {
      ParseLinesUppercase(lines[..|lines| - 1]);
    }
  }

  /** The first word of a line, or the empty string for a line with none. */
  function FirstWord(line: string): string {
    var tokens := Split(line);
    if tokens == [] then [] else tokens[0]
  }

  /** Without a "@SOUND" header the parser never enters the sound section and collects no sounds. */
  lemma {:induction false} NoSoundHeaderNoSounds(lines: seq<string>)
    requires forall k :: 0 <= k < |lines| ==> FirstWord(lines[k]) != "@SOUND"
    requires ParseLines(lines).Success?
    ensures ParseLines(lines).value.mode != Sound
    ensures ParseLines(lines).value.sounds == map[]
    decreases |lines|
  {
    if lines != [] {
      var front := lines[..|lines| - 1];
      var last := lines[|lines| - 1];
      assert forall k :: 0 <= k < |front| ==> front[k] == lines[k];
      NoSoundHeaderNoSounds(front);
      if last != [] && last[0] == '@' {
        assert FirstWord(last) == Split(last)[0];
      }
    }
  }

  // ---------------------------------------------------------------------
  // The loaded file
  // ---------------------------------------------------------------------

  /** Ceiling settings; the parser leaves them at their defaults. */
  datatype CeilingData = CeilingData(height: int, unknown: int, outdoorDungeon: bool)

  const DefaultCeiling: CeilingData := CeilingData(100, 0, false)

  /** Settings of one flat (sprite) entry. */
  datatype FlatData = FlatData(yOffset: int, health: int, flatType: int)

  const DefaultFlat: FlatData := FlatData(0, 0, 0)

  /** A loaded .INF file: its sound table and its ceiling settings. */
  datatype Inf = Inf(sounds: map<int, string>, ceiling: CeilingData)

  /** The file a name and its bytes load to, or the reason loading stops. */
  function Decode(filename: string, data: seq<bv8>): (r: Result<Inf, InfError>)
    ensures r.Success? <==> ParseLines(Lines(PlainText(filename, data))).Success?
    ensures r.Success? ==> r.value.sounds == ParseLines(Lines(PlainText(filename, data))).value.sounds
    ensures r.Success? ==> r.value.ceiling == CeilingData(100, 0, false)
  {
    match SoundsOf(PlainText(filename, data))
    case Failure(e) => Failure(e)
    case Success(sounds) => Success(Inf(sounds, DefaultCeiling))
  }

  /**
   * Loads a file given its name and its bytes: decodes them in place when
   * the file is encrypted, removes carriage returns and parses the text.
   */
  method Load(filename: string, data: seq<bv8>) returns (r: Result<Inf, InfError>)
    ensures r == Decode(filename, data)
    ensures r.Success? ==> r.value.ceiling == CeilingData(100, 0, false)
  {
    var buffer := new bv8[|data|](i requires 0 <= i < |data| => data[i]);
    assert buffer[..] == data;
    if IsEncrypted(filename) {
      Decrypt(buffer);
    }
    var text := BytesToText(buffer[..]);
    text := RemoveChar(text, '\r');
    var sounds := ParseText(text);
    match sounds
    case Failure(e) => r := Failure(e);
    case Success(s) => r := Success(Inf(s, DefaultCeiling));
  }

  /** The name stored under a sound ID; an absent ID is an error (std::out_of_range). */
  function GetSound(inf: Inf, id: int): (r: Option<string>)
    ensures r.Some? <==> id in inf.sounds
    ensures r.Some? ==> r.value == inf.sounds[id]
  {
    if id in inf.sounds then Some(inf.sounds[id]) else None
  }

  /** Every sound name a loaded file hands out is in upper case. */
  lemma GetSoundUppercase(filename: string, data: seq<bv8>, id: int)
    requires Decode(filename, data).Success?
    requires GetSound(Decode(filename, data).value, id).Some?
    ensures NoLower(GetSound(Decode(filename, data).value, id).value)
  {
    ParseLinesUppercase(Lines(PlainText(filename, data)));
  }
}
