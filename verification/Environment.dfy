/** The environment of a session, internal/sshserver/shell.go: a map filled with the process's variables and then the
    client's, written out in whatever order the map is walked, and read back by first match. */
module Environment {
  import opened Options

  const HOME := "HOME"
  const USER := "USER"
  const LOGNAME := "LOGNAME"
  const TERM := "TERM"
  const COLORTERM := "COLORTERM"

  // ---- entries

  datatype Variable = Variable(key: string, value: string)

  /** strings.Cut(entry, "="). */
  function Cut(entry: string): (v: Option<Variable>)
    ensures v.Some? ==> '=' !in v.value.key && entry == v.value.key + "=" + v.value.value
    ensures v.None? <==> '=' !in entry
  {
    if entry == [] then None
    else if entry[0] == '=' then Some(Variable([], entry[1..]))
    else
      match Cut(entry[1..])
      case None => None
      case Some(v) => Some(Variable([entry[0]] + v.key, v.value))
  }

  function Entry(key: string, value: string): string {
    key + "=" + value
  }

  lemma {:induction false} CutOfEntry(key: string, value: string)
    requires '=' !in key
    ensures Cut(Entry(key, value)) == Some(Variable(key, value))
  {
    var entry := Entry(key, value);
    if key == [] {
      assert entry[1..] == value;
    } else {
      assert entry[0] == key[0] && entry[1..] == Entry(key[1..], value);
      CutOfEntry(key[1..], value);
      assert [key[0]] + key[1..] == key;
    }
  }

  predicate HasPrefix(s: string, prefix: string) {
    |prefix| <= |s| && s[..|prefix|] == prefix
  }

  /** For a name without '=', testing the prefix "name=" is testing the name. */
  lemma PrefixMeansKey(entry: string, key: string)
    requires '=' !in key
    ensures HasPrefix(entry, key + "=") <==> Sets(entry, key)
    ensures HasPrefix(entry, key + "=") ==> Cut(entry) == Some(Variable(key, entry[|key| + 1..]))
  {
    if Sets(entry, key) {
      assert entry[..|key| + 1] == key + "=";
    }
    if HasPrefix(entry, key + "=") {
      assert entry == Entry(key, entry[|key| + 1..]);
      CutOfEntry(key, entry[|key| + 1..]);
    }
  }

  // ---- reading an environment, from either end

  /** The entry sets the variable. */
  predicate Sets(entry: string, key: string) {
    Cut(entry).Some? && Cut(entry).value.key == key
  }

  function FirstMatch(env: seq<string>, key: string): Option<string> {
    if env == [] then None
    else if Sets(env[0], key) then Some(Cut(env[0]).value.value)
    else FirstMatch(env[1..], key)
  }

  function LastMatch(env: seq<string>, key: string): Option<string> {
    if env == [] then None
    else if Sets(env[|env| - 1], key) then Some(Cut(env[|env| - 1]).value.value)
    else LastMatch(env[..|env| - 1], key)
  }

  ghost predicate KeysUnique(env: seq<string>) {
    && (forall i :: 0 <= i < |env| ==> Cut(env[i]).Some?)
    && (forall i, j :: 0 <= i < j < |env| ==> Cut(env[i]).value.key != Cut(env[j]).value.key)
  }

  lemma {:induction false} FirstMatchAt(env: seq<string>, i: nat, key: string)
    requires i < |env| && Sets(env[i], key) && forall j :: 0 <= j < i ==> !Sets(env[j], key)
    ensures FirstMatch(env, key) == Some(Cut(env[i]).value.value)
  {
    if i > 0 {
      FirstMatchAt(env[1..], i - 1, key);
    }
  }

  lemma {:induction false} LastMatchAt(env: seq<string>, i: nat, key: string)
    requires i < |env| && Sets(env[i], key) && forall j :: i < j < |env| ==> !Sets(env[j], key)
    ensures LastMatch(env, key) == Some(Cut(env[i]).value.value)
    decreases |env|
  {
    if i < |env| - 1 {
      LastMatchAt(env[..|env| - 1], i, key);
    }
  }

  lemma {:induction false} NoMatch(env: seq<string>, key: string)
    requires forall i :: 0 <= i < |env| ==> !Sets(env[i], key)
    ensures FirstMatch(env, key).None? && LastMatch(env, key).None?
  {
    if env != [] {
      NoMatch(env[1..], key);
      NoMatch(env[..|env| - 1], key);
    }
  }

  /** With unique keys it does not matter from which end a reader searches: `lookupEnv` and the child agree. */
  lemma UniqueKeysReadAlike(env: seq<string>, key: string)
    requires KeysUnique(env)
    ensures FirstMatch(env, key) == LastMatch(env, key)
  {
    if i :| 0 <= i < |env| && Sets(env[i], key) {
      FirstMatchAt(env, i, key);
      LastMatchAt(env, i, key);
    } else {
      NoMatch(env, key);
    }
  }

  lemma LastMatchAppend(env: seq<string>, entry: string, key: string)
    ensures LastMatch(env + [entry], key) ==
      if Sets(entry, key) then Some(Cut(entry).value.value) else LastMatch(env, key)
  {
    assert (env + [entry])[..|env|] == env;
  }

  lemma {:induction false} FirstMatchAppend(env: seq<string>, entry: string, key: string)
    ensures FirstMatch(env + [entry], key) ==
      if FirstMatch(env, key).Some? then FirstMatch(env, key)
      else if Sets(entry, key) then Some(Cut(entry).value.value)
      else None
  {
    if env == [] {
      assert (env + [entry])[1..] == [];
    } else {
      FirstMatchAppend(env[1..], entry, key);
      assert (env + [entry])[1..] == env[1..] + [entry];
    }
  }

  // ---- the functions of the program

  /** For a name with '=' in it the prefix test can match an entry of another variable; the program asks for none. */
  method LookupEnv(env: seq<string>, key: string) returns (value: string, ok: bool)
    ensures ok <==> exists i :: 0 <= i < |env| && HasPrefix(env[i], key + "=")
    ensures ok ==> exists i :: 0 <= i < |env| && env[i] == key + "=" + value
                               && forall j :: 0 <= j < i ==> !HasPrefix(env[j], key + "=")
    ensures !ok ==> value == ""
    ensures '=' !in key ==> FirstMatch(env, key) == if ok then Some(value) else None
  {
    var prefix := key + "=";
    for i := 0 to |env|
      invariant forall j :: 0 <= j < i ==> !HasPrefix(env[j], prefix)
      invariant '=' !in key ==> FirstMatch(env, key) == FirstMatch(env[i..], key)
    {
      if '=' !in key {
        PrefixMeansKey(env[i], key);
        assert env[i..][1..] == env[i + 1..];
      }
      if HasPrefix(env[i], prefix) {
        value := env[i][|prefix|..];
        assert env[i] == prefix + value;
        return value, true;
      }
    }
    assert env[|env|..] == [];
    return "", false;
  }

  /** The first loop of `mergeEnv`: later entries win. */
  method Collect(entries: seq<string>) returns (merged: map<string, string>)
    ensures forall key :: key in merged <==> LastMatch(entries, key).Some?
    ensures forall key :: key in merged ==> LastMatch(entries, key) == Some(merged[key]) && '=' !in key
  {
    merged := map[];
    for i := 0 to |entries|
      invariant forall key :: key in merged <==> LastMatch(entries[..i], key).Some?
      invariant forall key :: key in merged ==> LastMatch(entries[..i], key) == Some(merged[key]) && '=' !in key
    {
      assert entries[..i + 1] == entries[..i] + [entries[i]];
      forall key {
        LastMatchAppend(entries[..i], entries[i], key);
      }
      match Cut(entries[i])
      case None =>
      case Some(v) => merged := merged[v.key := v.value];
    }
    assert entries[..|entries|] == entries;
  }

  /** append(env, key+"="+value) for a key that is not there yet. */
  method Append(env: seq<string>, key: string, value: string) returns (out: seq<string>)
    requires '=' !in key && FirstMatch(env, key).None?
    ensures env <= out && (KeysUnique(env) ==> KeysUnique(out))
    ensures forall k :: FirstMatch(out, k) == if k == key then Some(value) else FirstMatch(env, k)
  {
    out := env + [Entry(key, value)];
    CutOfEntry(key, value);
    forall k ensures FirstMatch(out, k) == if k == key then Some(value) else FirstMatch(env, k) {
      FirstMatchAppend(env, Entry(key, value), k);
    }
    if KeysUnique(env) {
      forall i | 0 <= i < |env| ensures Cut(env[i]).value.key != key {
        if Sets(env[i], key) {
          FirstMatchAt(env, i, key);
        }
      }
    }
  }

  /** Its second loop.  The order in which a map is walked is arbitrary: any key not yet written may come next. */
  method WriteOut(merged: map<string, string>) returns (out: seq<string>)
    requires forall key :: key in merged ==> '=' !in key
    ensures KeysUnique(out)
    ensures forall key :: FirstMatch(out, key) == if key in merged then Some(merged[key]) else None
  {
    out := [];
    var todo := merged.Keys;
    while todo != {}
      invariant todo <= merged.Keys && KeysUnique(out)
      invariant forall key :: FirstMatch(out, key) == if key in merged.Keys - todo then Some(merged[key]) else None
      decreases |todo|
    {
      var key :| key in todo;
      out := Append(out, key, merged[key]);
      todo := todo - {key};
    }
  }

  method MergeEnv(process: seq<string>, client: seq<string>) returns (out: seq<string>)
    ensures KeysUnique(out)
    ensures forall key :: FirstMatch(out, key) == LastMatch(process + client, key)
  {
    var merged := Collect(process + client);
    out := WriteOut(merged);
  }

  /** The passwd entry of the current user. */
  datatype Account = Account(home: string, username: string)

  /** What the fallback would set a variable to, if anything. */
  function FromAccount(account: Option<Account>, key: string): Option<string> {
    if account.None? then None
    else if key == HOME then if account.value.home != "" then Some(account.value.home) else None
    else if key == USER || key == LOGNAME then
      if account.value.username != "" then Some(account.value.username) else None
    else None
  }

  function Or(first: Option<string>, second: Option<string>): Option<string> {
    if first.Some? then first else second
  }

  function NonEmpty(value: string): Option<string> {
    if value != "" then Some(value) else None
  }

  /** Which variable comes from which field of the passwd entry. */
  lemma AccountVariables(account: Option<Account>)
    ensures account.Some? ==>
      && FromAccount(account, "HOME") == NonEmpty(account.value.home)
      && FromAccount(account, "USER") == FromAccount(account, "LOGNAME") == NonEmpty(account.value.username)
    ensures forall key :: key !in {"HOME", "USER", "LOGNAME"} || account.None? ==> FromAccount(account, key).None?
  {
    assert "HOME"[0] != "USER"[0] && |"LOGNAME"| != |"HOME"|;
  }

  /** Whether the environment sets the variable. */
  method Has(env: seq<string>, key: string) returns (ok: bool)
    requires '=' !in key
    ensures ok <==> FirstMatch(env, key).Some?
  {
    var _, found := LookupEnv(env, key);
    ok := found;
  }

  /** Only missing account variables are filled in: no key becomes ambiguous and no existing value changes. */
  method WithPasswdFallback(env: seq<string>, account: Option<Account>) returns (out: seq<string>)
    ensures env <= out && (KeysUnique(env) ==> KeysUnique(out))
    ensures forall key :: FirstMatch(out, key) == Or(FirstMatch(env, key), FromAccount(account, key))
    ensures account.None? ==> out == env
    ensures account.Some? ==>
      && FirstMatch(out, "HOME") == Or(FirstMatch(env, "HOME"), NonEmpty(account.value.home))
      && FirstMatch(out, "USER") == Or(FirstMatch(env, "USER"), NonEmpty(account.value.username))
      && FirstMatch(out, "LOGNAME") == Or(FirstMatch(env, "LOGNAME"), NonEmpty(account.value.username))
    ensures forall key :: key !in {"HOME", "USER", "LOGNAME"} ==> FirstMatch(out, key) == FirstMatch(env, key)
  {
    AccountVariables(account);
    var hasHome := Has(env, HOME);
    var hasUser := Has(env, USER);
    var hasLogname := Has(env, LOGNAME);
    out := env;
    if (hasHome && hasUser && hasLogname) || account.None? {
      return;
    }
    assert HOME[0] != USER[0] && |LOGNAME| != |HOME| && |LOGNAME| != |USER|;
    if !hasHome && account.value.home != "" {
      out := Append(out, HOME, account.value.home);
    }
    assert forall key :: FirstMatch(out, key) == Or(FirstMatch(env, key), Only(HOME, account, key));
    if account.value.username != "" && !hasUser {
      out := Append(out, USER, account.value.username);
    }
    assert forall key ::
        FirstMatch(out, key) == Or(FirstMatch(env, key), Or(Only(HOME, account, key), Only(USER, account, key)));
    if account.value.username != "" && !hasLogname {
      out := Append(out, LOGNAME, account.value.username);
    }
  }

  /** The fallback for one of the three variables alone. */
  ghost function Only(name: string, account: Option<Account>, key: string): Option<string> {
    if key == name then FromAccount(account, key) else None
  }

  /** The home directory of the session if it is one, and otherwise none. */
  method SessionWorkingDir(env: seq<string>, isDir: string -> bool) returns (dir: string)
    ensures dir == match FirstMatch(env, "HOME")
                   case Some(home) => if home != "" && isDir(home) then home else ""
                   case None => ""
  {
    var home, ok := LookupEnv(env, HOME);
    if !ok || home == "" {
      return "";
    }
    if !isDir(home) {
      return "";
    }
    return home;
  }

  // ---- the whole way

  /** What a session's shell sees of a variable: the client's last word, else the process's, else the passwd entry's. */
  function Expected(process: seq<string>, client: seq<string>, account: Option<Account>, key: string): Option<string> {
    Or(LastMatch(client, key), Or(LastMatch(process, key), FromAccount(account, key)))
  }

  lemma {:induction false} LastMatchConcat(process: seq<string>, client: seq<string>, key: string)
    ensures LastMatch(process + client, key) == Or(LastMatch(client, key), LastMatch(process, key))
    decreases |client|
  {
    if client == [] {
      assert process + client == process;
    } else {
      var n := |client| - 1;
      LastMatchConcat(process, client[..n], key);
      assert process + client == (process + client[..n]) + [client[n]];
      assert client == client[..n] + [client[n]];
      LastMatchAppend(process + client[..n], client[n], key);
      LastMatchAppend(client[..n], client[n], key);
    }
  }

  method SessionEnv(process: seq<string>, client: seq<string>, account: Option<Account>) returns (env: seq<string>)
    ensures KeysUnique(env)
    ensures forall key :: FirstMatch(env, key) == LastMatch(env, key) == Expected(process, client, account, key)
    ensures account.Some? ==>
      && FirstMatch(env, "HOME") == Or(LastMatch(process + client, "HOME"), NonEmpty(account.value.home))
      && FirstMatch(env, "USER") == Or(LastMatch(process + client, "USER"), NonEmpty(account.value.username))
      && FirstMatch(env, "LOGNAME") == Or(LastMatch(process + client, "LOGNAME"), NonEmpty(account.value.username))
  {
    var merged := MergeEnv(process, client);
    env := WithPasswdFallback(merged, account);
    forall key
      ensures FirstMatch(env, key) == LastMatch(env, key) == Expected(process, client, account, key)
    {
      UniqueKeysReadAlike(env, key);
      LastMatchConcat(process, client, key);
    }
  }

  /** The environment with the two variables `runWithPty` appends without looking. */
  function OnTerminal(env: seq<string>, term: string): seq<string> {
    env + [Entry(TERM, term)] + [Entry(COLORTERM, "truecolor")]
  }

  function TerminalValue(term: string, key: string): Option<string> {
    if key == TERM then Some(term) else if key == COLORTERM then Some("truecolor") else None
  }

  lemma TerminalLookup(env: seq<string>, term: string, key: string)
    ensures LastMatch(OnTerminal(env, term), "TERM") == Some(term)
    ensures LastMatch(OnTerminal(env, term), "COLORTERM") == Some("truecolor")
    ensures key !in {"TERM", "COLORTERM"} ==> LastMatch(OnTerminal(env, term), key) == LastMatch(env, key)
    ensures LastMatch(OnTerminal(env, term), key) == Or(TerminalValue(term, key), LastMatch(env, key))
    ensures FirstMatch(OnTerminal(env, term), key) == Or(FirstMatch(env, key), TerminalValue(term, key))
  {
    var one := env + [Entry(TERM, term)];
    CutOfEntry(TERM, term);
    CutOfEntry(COLORTERM, "truecolor");
    LastMatchAppend(env, Entry(TERM, term), key);
    LastMatchAppend(one, Entry(COLORTERM, "truecolor"), key);
    FirstMatchAppend(env, Entry(TERM, term), key);
    FirstMatchAppend(one, Entry(COLORTERM, "truecolor"), key);
    LastMatchAppend(env, Entry(TERM, term), "TERM");
    LastMatchAppend(one, Entry(COLORTERM, "truecolor"), "TERM");
    LastMatchAppend(one, Entry(COLORTERM, "truecolor"), "COLORTERM");
    assert |"TERM"| != |"COLORTERM"|;
  }

  /** On a terminal the child, which takes the last match, sees the appended variables; a first-match reader sees the
      same environment exactly when no earlier entry contradicts them. */
  lemma TerminalReadsAlikeIff(env: seq<string>, term: string, key: string)
    requires KeysUnique(env)
    ensures FirstMatch(OnTerminal(env, term), key) == LastMatch(OnTerminal(env, term), key) <==>
      FirstMatch(env, key).None? || TerminalValue(term, key).None? || FirstMatch(env, key) == TerminalValue(term, key)
  {
    TerminalLookup(env, term, key);
    UniqueKeysReadAlike(env, key);
  }
}
