/** The command line parsed into fixed C buffers. A buffer holds the C string before its first NUL. */
module Parser {
  import opened Limits
  import opened Wire

  const NAME_SIZE := 50
  const PATH_SIZE := 200

  const LIST_SERVER := 5
  const LIST_CLIENT := 6
  const GET_SYNC_DIR := 7
  const INVALID_COMMAND := -1

  // ---------- splitting the line ----------

  function SkipSpaces(line: string): string {
    if line == "" || line[0] != ' ' then line else SkipSpaces(line[1..])
  }

  function Word(line: string): (w: string)
    ensures |w| <= |line| && w == line[..|w|] && ' ' !in w
    ensures |w| < |line| ==> line[|w|] == ' '
  {
    if line == "" || line[0] == ' ' then "" else [line[0]] + Word(line[1..])
  }

  /** strtok(line, " "): the first word, or None for a line of spaces. */
  function FirstWord(line: string): Option<string> {
    var l := SkipSpaces(line);
    if l == "" then None else Some(Word(l))
  }

  /** strtok(NULL, "") after that: everything behind the space that ended the word, or None. */
  function RestOfLine(line: string): Option<string> {
    var l := SkipSpaces(line);
    var w := Word(l);
    if |w| + 1 < |l| then Some(l[|w| + 1..]) else None
  }

  function CommandId(name: string): int {
    if name == "upload" then UPLOAD
    else if name == "download" then DOWNLOAD
    else if name == "delete" then DELETE
    else if name == "list_server" then LIST_SERVER
    else if name == "list_client" then LIST_CLIENT
    else if name == "get_sync_dir" then GET_SYNC_DIR
    else if name == "exit" then EXIT
    else INVALID_COMMAND
  }

  /** strrchr(p, '/') as an index, or -1. */
  function LastSlash(p: string): (i: int)
    ensures -1 <= i < |p| && (i >= 0 ==> p[i] == '/')
    ensures forall j :: i < j < |p| ==> p[j] != '/'
  {
    if p == "" then -1 else if p[|p| - 1] == '/' then |p| - 1 else LastSlash(p[..|p| - 1])
  }

  function DirPart(p: string): string { p[..LastSlash(p) + 1] }
  function NamePart(p: string): string { p[LastSlash(p) + 1..] }

  /** What a line asks for. Fault is a null dereference of what strtok returned. */
  datatype Parse =
    | Fault
    | UploadOf(dir: string, name: string)
    | FileOf(id: int, name: string)
    | Plain(id: int)
    | Invalid

  function ParseLine(line: string): Parse {
    var word, rest := FirstWord(line), RestOfLine(line);
    if word.None? then Fault
    else
      var id := CommandId(word.value);
      if id == UPLOAD then
        if rest.None? then Fault
        else if rest.value[0] == '/' then UploadOf(DirPart(rest.value), NamePart(rest.value))
        else Invalid
      else if id == DOWNLOAD || id == DELETE then
        if rest.None? then Fault else FileOf(id, rest.value)
      else if id == INVALID_COMMAND then Invalid
      else Plain(id)
  }

  /** What the console needs of a line for the copies to stay inside the buffers. */
  predicate Fits(line: string) {
    && '\0' !in line
    && (FirstWord(line).Some? ==> |FirstWord(line).value| < NAME_SIZE)
    && match ParseLine(line)
       case UploadOf(dir, name) => |dir| < PATH_SIZE && |name| < NAME_SIZE
       case FileOf(_, name) => |name| < NAME_SIZE
       case _ => true
  }

  class Instruction {
    const commandName: array<char>
    const path: array<char>
    const filename: array<char>
    var commandId: int

    ghost predicate Valid()
      reads this
    {
      && commandName.Length == NAME_SIZE && path.Length == PATH_SIZE && filename.Length == NAME_SIZE
      && commandName != path && commandName != filename && path != filename
    }

    /** Buffers hold whatever was in memory until the first reset. */
    constructor ()
      ensures Valid() && fresh(commandName) && fresh(path) && fresh(filename)
    {
      commandName := new char[NAME_SIZE];
      path := new char[PATH_SIZE];
      filename := new char[NAME_SIZE];
      commandId := INVALID_COMMAND;
    }

    /** strcpy */
    static method StrCpy(dest: array<char>, s: string)
      requires |s| < dest.Length && '\0' !in s
      modifies dest
      ensures dest[..] == s + ['\0'] + old(dest[..])[|s| + 1..]
      ensures CString(dest[..]) == s
    {
      forall i | 0 <= i < |s| { dest[i] := s[i]; }
      dest[|s|] := '\0';
      CStringIs(s, old(dest[..])[|s| + 1..]);
      assert dest[..] == s + ['\0'] + old(dest[..])[|s| + 1..];
    }

    /** strncpy of fewer bytes than the source has: no terminator is written. */
    static method StrNCpy(dest: array<char>, s: string, n: nat)
      requires n <= |s| && n <= dest.Length
      modifies dest
      ensures dest[..] == s[..n] + old(dest[..])[n..]
    {
      forall i | 0 <= i < n { dest[i] := s[i]; }
    }

    /** reset: every byte of every buffer becomes NUL. */
    method Reset()
      requires Valid()
      modifies this`commandId, commandName, path, filename
      ensures Valid() && commandId == INVALID_COMMAND
      ensures forall i :: 0 <= i < NAME_SIZE ==> commandName[i] == '\0' && filename[i] == '\0'
      ensures forall i :: 0 <= i < PATH_SIZE ==> path[i] == '\0'
    {
      commandId := INVALID_COMMAND;
      for i := 0 to NAME_SIZE
        invariant commandId == INVALID_COMMAND
        invariant forall j :: 0 <= j < i ==> commandName[j] == '\0' && filename[j] == '\0'
      {
        filename[i] := '\0';
        commandName[i] := '\0';
      }
      for i := 0 to PATH_SIZE
        invariant commandId == INVALID_COMMAND
        invariant forall j :: 0 <= j < i ==> path[j] == '\0'
        invariant forall j :: 0 <= j < NAME_SIZE ==> commandName[j] == '\0' && filename[j] == '\0'
      {
        path[i] := '\0';
      }
    }

    /** prepare; false is a null dereference. An upload overwrites only the first bytes of the path and leaves
        the others as they were. */
    method Prepare(line: string) returns (ok: bool)
      requires Valid() && Fits(line)
      modifies this`commandId, commandName, path, filename
      ensures Valid() && (ok <==> !ParseLine(line).Fault?)
      ensures ok ==> CString(commandName[..]) == FirstWord(line).value
      ensures
        match ParseLine(line)
        case UploadOf(dir, name) =>
          commandId == UPLOAD && path[..] == dir + old(path[..])[|dir|..] && CString(filename[..]) == name
        case FileOf(id, name) => commandId == id && CString(path[..]) == "" && CString(filename[..]) == name
        case Plain(id) => commandId == id && CString(path[..]) == "" && CString(filename[..]) == ""
        case Invalid => commandId == INVALID_COMMAND && path[..] == old(path[..]) && filename[..] == old(filename[..])
        case Fault => path[..] == old(path[..]) && filename[..] == old(filename[..])
    {
      var word := FirstWord(line);
      if word.None? { return false; }
      NoNul(line);
      hide FirstWord, RestOfLine, CommandId, CString;
      StrCpy(commandName, word.value);
      commandId := CommandId(word.value);
      var rest := RestOfLine(line);
      if commandId == UPLOAD {
        if rest.None? { return false; }
        if rest.value[0] == '/' {
          var p := rest.value;
          StrNCpy(path, p, LastSlash(p) + 1);
          StrCpy(filename, NamePart(p));
        } else {
          commandId := INVALID_COMMAND;
        }
      } else if commandId == DOWNLOAD || commandId == DELETE {
        if rest.None? { return false; }
        StrCpy(filename, rest.value);
        StrCpy(path, "");
      } else if commandId != INVALID_COMMAND {
        StrCpy(path, "");
        StrCpy(filename, "");
      }
      return true;
    }

    /** The path upload_file opens: strcpy of the path and strcat of the file name. */
    function FilePath(): string
      reads path, filename
    {
      CString(path[..]) + CString(filename[..])
    }

    /** One round of the console: whatever the previous instruction left behind, and however many spaces come first, an
        upload of an absolute path gives a directory ending in '/', a slash-free name, and upload_file opens exactly the
        path typed. */
    method TypeUpload(spaces: nat, typed: string)
      requires Valid() && typed != "" && typed[0] == '/' && '\0' !in typed
      requires |DirPart(typed)| < PATH_SIZE && |NamePart(typed)| < NAME_SIZE
      modifies this`commandId, commandName, path, filename
      ensures Valid() && commandId == UPLOAD
      ensures CString(path[..]) == DirPart(typed) && DirPart(typed)[|DirPart(typed)| - 1] == '/'
      ensures CString(filename[..]) == NamePart(typed) && '/' !in NamePart(typed)
      ensures FilePath() == typed
    {
      PartsOf(spaces, typed);
      LineFits(spaces, typed);
      hide ParseLine, FirstWord, CString, DirPart, NamePart, Fits, Line;
      Reset();
      ghost var zeros := path[..];
      assert |DirPart(typed)| < |zeros| && zeros[|DirPart(typed)|] == '\0';
      var ok := Prepare(Line(spaces, "upload", " " + typed));
      CStringPrefix(DirPart(typed), zeros[|DirPart(typed)|..]);
    }

    /** A delete asks for a delete and a download for a download, of exactly the name typed. */
    method TypeFile(spaces: nat, word: string, name: string)
      requires Valid() && (word == "delete" || word == "download")
      requires name != "" && '\0' !in name && |name| < NAME_SIZE
      modifies this`commandId, commandName, path, filename
      ensures Valid() && commandId == if word == "delete" then DELETE else DOWNLOAD
      ensures CString(filename[..]) == name && CString(path[..]) == "" && FilePath() == name
    {
      FileLine(spaces, word, name);
      hide ParseLine, FirstWord, RestOfLine, CString, Fits, Line;
      Reset();
      var ok := Prepare(Line(spaces, word, " " + name));
      assert "" + name == name;
    }

    /** The four commands without a file, whatever is typed behind them. */
    method TypeWord(spaces: nat, word: string, rest: string)
      requires Valid() && (rest == "" || rest[0] == ' ') && '\0' !in rest
      requires word == "list_server" || word == "list_client" || word == "get_sync_dir" || word == "exit"
      modifies this`commandId, commandName, path, filename
      ensures Valid() && FilePath() == ""
      ensures commandId == LIST_SERVER <==> word == "list_server"
      ensures commandId == LIST_CLIENT <==> word == "list_client"
      ensures commandId == GET_SYNC_DIR <==> word == "get_sync_dir"
      ensures commandId == EXIT <==> word == "exit"
    {
      PlainLine(spaces, word, rest);
      hide ParseLine, FirstWord, RestOfLine, CString, Fits, Line;
      Reset();
      var ok := Prepare(Line(spaces, word, rest));
    }

    /** Any other word is no command. */
    method TypeOther(spaces: nat, word: string, rest: string)
      requires Valid() && (rest == "" || rest[0] == ' ') && '\0' !in rest
      requires word != "" && ' ' !in word && '\0' !in word && |word| < NAME_SIZE
      requires word !in ["upload", "download", "delete", "list_server", "list_client", "get_sync_dir", "exit"]
      modifies this`commandId, commandName, path, filename
      ensures Valid() && commandId == INVALID_COMMAND
    {
      OtherLine(spaces, word, rest);
      hide ParseLine, FirstWord, RestOfLine, CString, Fits, Line;
      Reset();
      var ok := Prepare(Line(spaces, word, rest));
    }

    /** A line of spaces, and a command that needs a file without one, dereference null. */
    method TypeShort(spaces: nat, word: string, rest: string) returns (ok: bool)
      requires Valid() && (word == "" || word == "upload" || word == "download" || word == "delete")
      requires rest == "" || rest == " "
      modifies this`commandId, commandName, path, filename
      ensures !ok
    {
      ShortLine(spaces, word, rest);
      hide ParseLine, FirstWord, RestOfLine, CString, Fits, Line;
      Reset();
      ok := Prepare(Line(spaces, word, rest));
    }
  }

  lemma {:induction false} SkipSpacesIsSuffix(line: string) returns (k: nat)
    ensures k <= |line| && SkipSpaces(line) == line[k..]
  {
    if line == "" || line[0] != ' ' {
      k := 0;
    } else {
      var k1 := SkipSpacesIsSuffix(line[1..]);
      k := k1 + 1;
    }
  }

  /** The pieces of a C string are C strings. */
  lemma NoNul(line: string)
    requires '\0' !in line
    ensures FirstWord(line).Some? ==> '\0' !in FirstWord(line).value
    ensures RestOfLine(line).Some? ==> RestOfLine(line).value != "" && '\0' !in RestOfLine(line).value
  {
    var k := SkipSpacesIsSuffix(line);
  }

  lemma {:induction false} WordIs(w: string, rest: string)
    requires ' ' !in w && rest != "" && rest[0] == ' '
    ensures Word(w + rest) == w
  {
    if w == "" {
      assert w + rest == rest;
    } else {
      WordIs(w[1..], rest);
      assert (w + rest)[1..] == w[1..] + rest;
    }
  }

  /** What is typed: some spaces, a word, and what comes behind it. */
  function Line(spaces: nat, word: string, rest: string): string { seq(spaces, _ => ' ') + word + rest }

  lemma {:induction false} SpacesSkipped(spaces: nat, line: string)
    requires line == "" || line[0] != ' '
    ensures SkipSpaces(seq(spaces, _ => ' ') + line) == line
  {
    var all := seq(spaces, _ => ' ') + line;
    if spaces == 0 {
      assert all == line;
    } else {
      SpacesSkipped(spaces - 1, line);
      assert all[1..] == seq(spaces - 1, _ => ' ') + line;
    }
  }

  lemma LineParts(spaces: nat, word: string, rest: string)
    requires word != "" && ' ' !in word && (rest == "" || rest[0] == ' ')
    ensures FirstWord(Line(spaces, word, rest)) == Some(word)
    ensures RestOfLine(Line(spaces, word, rest)) == if |rest| <= 1 then None else Some(rest[1..])
  {
    var l := word + rest;
    SpacesSkipped(spaces, l);
    assert Line(spaces, word, rest) == seq(spaces, _ => ' ') + l;
    if rest == "" {
      assert l == word;
      OneWord(word);
    } else {
      WordIs(word, rest);
      assert |rest| > 1 ==> l[|word| + 1..] == rest[1..];
    }
    hide SkipSpaces, Word, Line;
  }

  lemma {:induction false} OneWord(w: string)
    requires ' ' !in w
    ensures Word(w) == w
  {
    if w != "" { OneWord(w[1..]); }
  }

  lemma LineHasNoNul(spaces: nat, word: string, rest: string)
    requires '\0' !in word && '\0' !in rest
    ensures '\0' !in Line(spaces, word, rest)
  {}

  lemma PartsOf(spaces: nat, typed: string)
    requires typed != "" && typed[0] == '/' && '\0' !in typed
    ensures ParseLine(Line(spaces, "upload", " " + typed)) == UploadOf(DirPart(typed), NamePart(typed))
    ensures DirPart(typed) + NamePart(typed) == typed && '/' !in NamePart(typed)
    ensures DirPart(typed) != "" && DirPart(typed)[|DirPart(typed)| - 1] == '/' && '\0' !in DirPart(typed)
  {
    hide Line, FirstWord, RestOfLine;
    LineParts(spaces, "upload", " " + typed);
  }

  lemma LineFits(spaces: nat, typed: string)
    requires typed != "" && typed[0] == '/' && '\0' !in typed
    requires |DirPart(typed)| < PATH_SIZE && |NamePart(typed)| < NAME_SIZE
    ensures Fits(Line(spaces, "upload", " " + typed))
  {
    hide ParseLine, DirPart, NamePart, Line, FirstWord, RestOfLine;
    LineParts(spaces, "upload", " " + typed);
    LineHasNoNul(spaces, "upload", " " + typed);
    PartsOf(spaces, typed);
  }

  lemma FileLine(spaces: nat, word: string, name: string)
    requires (word == "delete" || word == "download") && name != "" && '\0' !in name && |name| < NAME_SIZE
    ensures Fits(Line(spaces, word, " " + name))
    ensures ParseLine(Line(spaces, word, " " + name)) == FileOf(if word == "delete" then DELETE else DOWNLOAD, name)
  {
    hide Line, FirstWord, RestOfLine;
    LineParts(spaces, word, " " + name);
    LineHasNoNul(spaces, word, " " + name);
    assert (" " + name)[1..] == name;
  }

  lemma PlainLine(spaces: nat, word: string, rest: string)
    requires (rest == "" || rest[0] == ' ') && '\0' !in rest
    requires word == "list_server" || word == "list_client" || word == "get_sync_dir" || word == "exit"
    ensures Fits(Line(spaces, word, rest))
    ensures
      ParseLine(Line(spaces, word, rest)) ==
      Plain(if word == "list_server" then LIST_SERVER else if word == "list_client" then LIST_CLIENT
            else if word == "get_sync_dir" then GET_SYNC_DIR else EXIT)
  {
    hide Line, FirstWord, RestOfLine;
    LineParts(spaces, word, rest);
    LineHasNoNul(spaces, word, rest);
  }

  lemma OtherLine(spaces: nat, word: string, rest: string)
    requires (rest == "" || rest[0] == ' ') && '\0' !in rest
    requires word != "" && ' ' !in word && '\0' !in word && |word| < NAME_SIZE
    requires word !in ["upload", "download", "delete", "list_server", "list_client", "get_sync_dir", "exit"]
    ensures Fits(Line(spaces, word, rest)) && ParseLine(Line(spaces, word, rest)) == Invalid
  {
    hide Line, FirstWord, RestOfLine;
    LineParts(spaces, word, rest);
    LineHasNoNul(spaces, word, rest);
  }

  lemma ShortLine(spaces: nat, word: string, rest: string)
    requires (word == "" || word == "upload" || word == "download" || word == "delete") && (rest == "" || rest == " ")
    ensures Fits(Line(spaces, word, rest)) && ParseLine(Line(spaces, word, rest)) == Fault
  {
    LineHasNoNul(spaces, word, rest);
    if word == "" {
      SpacesSkipped(spaces + |rest|, "");
      assert Line(spaces, word, rest) == seq(spaces + |rest|, _ => ' ') + "";
    } else {
      LineParts(spaces, word, rest);
    }
    hide Line, SkipSpaces, Word;
  }

  /** Without the reset the path is right exactly when the byte behind the copied directory happened to be NUL. */
  lemma WithoutReset(dir: string, before: string)
    requires '\0' !in dir && |dir| < |before|
    ensures CString(dir + before[|dir|..]) == dir <==> before[|dir|] == '\0'
  {
    CStringPrefix(dir, before[|dir|..]);
  }
}
