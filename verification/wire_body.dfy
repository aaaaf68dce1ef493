/** The request body as `JSON.stringify` writes it: the object literal's members in
    declaration order, with a NaN timeout written as `null`. */
module WireBody {
  import opened Outcomes
  import opened JsNumber
  import opened TransferPanel

  datatype Json = JString(str: string) | JBool(truth: bool) | JNumber(num: int) | JNull

  type Member = (string, Json)

  const RsyncKeys: seq<string> := ["source", "destination", "flags", "dry_run", "use_wsl", "timeout"]
  const RcloneKeys: seq<string> :=
    ["source", "destination", "flags", "dry_run", "use_wsl", "config_path", "timeout"]

  /** `JSON.stringify` writes NaN as `null`. */
  function NumberJson(n: Number): Json {
    match n
    case Finite(v) => JNumber(v)
    case NaN => JNull
  }

  function Keys(members: seq<Member>): (keys: seq<string>)
    ensures |keys| == |members|
    ensures forall i :: 0 <= i < |members| ==> keys[i] == members[i].0
  {
    if members == [] then [] else [members[0].0] + Keys(members[1..])
  }

  /** The members of the serialised body, in order. */
  function Encode(p: Payload): (members: seq<Member>)
    ensures Keys(members) == if p.configPath.Some? then RcloneKeys else RsyncKeys
  {
    var config := match p.configPath
      case Some(c) => [("config_path", JString(c))]
      case None => [];
    [("source", JString(p.source)),
     ("destination", JString(p.destination)),
     ("flags", JString(p.flags)),
     ("dry_run", JBool(p.dryRun)),
     ("use_wsl", JBool(p.useWsl))]
    + config
    + [("timeout", NumberJson(p.timeout))]
  }

  /** The value of the first member named `key`. */
  function Lookup(members: seq<Member>, key: string): Option<Json>
  {
    if members == [] then None
    else if members[0].0 == key then Some(members[0].1)
    else Lookup(members[1..], key)
  }

  function StringMember(members: seq<Member>, key: string): Option<string> {
    match Lookup(members, key)
    case Some(JString(s)) => Some(s)
    case _ => None
  }

  function BoolMember(members: seq<Member>, key: string): Option<bool> {
    match Lookup(members, key)
    case Some(JBool(b)) => Some(b)
    case _ => None
  }

  function NumberMember(members: seq<Member>, key: string): Option<Number> {
    match Lookup(members, key)
    case Some(JNumber(n)) => Some(Finite(n))
    case Some(JNull) => Some(NaN)
    case _ => None
  }

  /** A reader for the body: every member but `config_path` must be present with its
      JSON type; `null` reads back as a NaN timeout. */
  function Decode(members: seq<Member>): Option<Payload> {
    var source := StringMember(members, "source");
    var destination := StringMember(members, "destination");
    var flags := StringMember(members, "flags");
    var dryRun := BoolMember(members, "dry_run");
    var useWsl := BoolMember(members, "use_wsl");
    var timeout := NumberMember(members, "timeout");
    if source.Some? && destination.Some? && flags.Some? && dryRun.Some? && useWsl.Some? && timeout.Some?
    then Some(Payload(source.value, destination.value, flags.value, dryRun.value, useWsl.value,
                      StringMember(members, "config_path"), timeout.value))
    else None
  }

  /** The serialised body loses nothing: reading it back gives the payload, a NaN
      timeout and an absent config path included. */
  lemma DecodeEncode(p: Payload)
    ensures Decode(Encode(p)) == Some(p)
  {
    var m := Encode(p);
    var c := if p.configPath.Some? then 1 else 0;
    EncodeLayout(p);
    CommonMembers(p, m, c);
    if p.configPath.Some? {
      LookupAt(m, 5);
    } else {
      LookupAbsent(m, "config_path");
    }
  }

  /** Where each member sits in the encoded body. */
  lemma EncodeLayout(p: Payload)
    ensures var m := Encode(p); var c := if p.configPath.Some? then 1 else 0;
      && |m| == 6 + c
      && m[0] == ("source", JString(p.source))
      && m[1] == ("destination", JString(p.destination))
      && m[2] == ("flags", JString(p.flags))
      && m[3] == ("dry_run", JBool(p.dryRun))
      && m[4] == ("use_wsl", JBool(p.useWsl))
      && m[5 + c] == ("timeout", NumberJson(p.timeout))
      && (p.configPath.Some? ==> m[5] == ("config_path", JString(p.configPath.value)))
  {
  }

  /** The members both tools send read back from a body laid out as `Encode` lays it
      out, the timeout at position 5 + `c`. */
  lemma CommonMembers(p: Payload, m: seq<Member>, c: nat)
    requires c <= 1 && 5 + c < |m|
    requires m[0] == ("source", JString(p.source))
    requires m[1] == ("destination", JString(p.destination))
    requires m[2] == ("flags", JString(p.flags))
    requires m[3] == ("dry_run", JBool(p.dryRun))
    requires m[4] == ("use_wsl", JBool(p.useWsl))
    requires m[5 + c] == ("timeout", NumberJson(p.timeout))
    requires c == 1 ==> m[5].0 == "config_path"
    ensures StringMember(m, "source") == Some(p.source)
    ensures StringMember(m, "destination") == Some(p.destination)
    ensures StringMember(m, "flags") == Some(p.flags)
    ensures BoolMember(m, "dry_run") == Some(p.dryRun)
    ensures BoolMember(m, "use_wsl") == Some(p.useWsl)
    ensures NumberMember(m, "timeout") == Some(p.timeout)
  {
    LookupAt(m, 0);
    LookupAt(m, 1);
    LookupAt(m, 2);
    LookupAt(m, 3);
    LookupAt(m, 4);
    LookupAt(m, 5 + c);
  }

  /** With distinct keys, looking up the key at position `i` finds that member's value. */
  lemma {:induction false} LookupAt(members: seq<Member>, i: nat)
    requires i < |members|
    requires forall j :: 0 <= j < i ==> members[j].0 != members[i].0
    ensures Lookup(members, members[i].0) == Some(members[i].1)
  {
    if i > 0 {
      LookupAt(members[1..], i - 1);
    }
  }

  /** A key no member carries is not found. */
  lemma {:induction false} LookupAbsent(members: seq<Member>, key: string)
    requires forall j :: 0 <= j < |members| ==> members[j].0 != key
    ensures Lookup(members, key) == None
  {
    if members != [] {
      LookupAbsent(members[1..], key);
    }
  }

  /** Both tools send the same members, except rclone's `config_path` just before the
      timeout. */
  lemma RcloneAddsOnlyConfigPath(f: Form)
    ensures Encode(BuildPayload(Rclone, f)) ==
      Encode(BuildPayload(Rsync, f))[..5] + [("config_path", JString(f.configPath))]
      + Encode(BuildPayload(Rsync, f))[5..]
  {
  }
}
