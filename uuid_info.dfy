/**
 * client/utils/uuid_info.py: the host identity. The platform command's output
 * (or its failure) is an input; what the core does with it is modelled.
 */
module UuidInfo {
  import opened Wrappers
  import opened Text

  /** What `subprocess.check_output(...).decode()` gave: text, or an exception (caught by the fetcher). */
  datatype CommandOutput = Output(text: string) | CommandFailed

  /** `get_system_uuid` as written: it can also raise. */
  datatype UuidResult =
    | Found(uuid: string)
    | Unsupported // `return None` for an unknown OS
    | Crashed     // `normalize_uuid(None)` raises AttributeError

  /** `get_system_uuid_linux` and `get_system_uuid_windows`: the output stripped, None on failure. */
  function FetchStripped(out: CommandOutput): (r: Option<string>)
    ensures r.Some? <==> out.Output?
    ensures r.Some? ==> r.value == [] || (!IsSpace(r.value[0]) && !IsSpace(r.value[|r.value| - 1]))
  {
    match out
    case Output(text) => Some(Strip(text))
    case CommandFailed => None
  }

  /** `get_system_uuid_mac`: `result.split('"')[-2]`; the IndexError of fewer than two parts gives None. */
  function FetchMac(out: CommandOutput): (r: Option<string>)
    ensures out.CommandFailed? ==> r.None?
    ensures out.Output? ==> (r.None? <==> '"' !in out.text)
    ensures r.Some? ==> '"' !in r.value
  {
    match out
    case CommandFailed => None
    case Output(text) =>
      var parts := Split(text, '"');
      SplitPartsFree(text, '"');
      if |parts| >= 2 then Some(parts[|parts| - 2]) else None
  }

  /** `normalize_uuid(uuid)`: `uuid.lower()`. */
  function NormalizeUuid(uuid: string): (r: string)
    ensures |r| == |uuid|
    ensures forall i :: 0 <= i < |r| ==> !IsUpper(r[i])
    ensures forall i :: 0 <= i < |r| && !IsUpper(uuid[i]) ==> r[i] == uuid[i]
  {
    Lower(uuid)
  }

  lemma NormalizeIdempotent(uuid: string)
    ensures NormalizeUuid(NormalizeUuid(uuid)) == NormalizeUuid(uuid)
  {
  }

  /** The fetcher `platform.system()` selects; None for an unsupported OS. */
  function Fetch(osName: string, out: CommandOutput): Option<Option<string>>
  {
    if osName == "Linux" || osName == "Windows" then Some(FetchStripped(out))
    else if osName == "Darwin" then Some(FetchMac(out))
    else None
  }

  predicate Supported(osName: string)
  {
    osName == "Linux" || osName == "Windows" || osName == "Darwin"
  }

  /** `get_system_uuid()` as written: a fetcher's None is passed on to `normalize_uuid`. */
  function GetSystemUuidAsWritten(osName: string, out: CommandOutput): (r: UuidResult)
    ensures r == Unsupported <==> !Supported(osName)
    ensures r == Crashed <==> Supported(osName) && Fetch(osName, out) == Some(None)
    ensures r.Found? ==> NormalizeUuid(r.uuid) == r.uuid
  {
    match Fetch(osName, out)
    case None => Unsupported
    case Some(None) => Crashed
    case Some(Some(raw)) => Found(NormalizeUuid(raw))
  }

  /** `get_system_uuid()` returning None, not raising, when the fetcher found nothing. */
  function GetSystemUuid(osName: string, out: CommandOutput): (r: Option<string>)
    ensures r.None? <==> !Supported(osName) || Fetch(osName, out) == Some(None)
    ensures r.Some? ==> NormalizeUuid(r.value) == r.value
  {
    match Fetch(osName, out)
    case None => None
    case Some(None) => None
    case Some(Some(raw)) => Some(NormalizeUuid(raw))
  }

  /** The two agree except where the version as written raises. */
  lemma CorrectedAgrees(osName: string, out: CommandOutput)
    ensures GetSystemUuidAsWritten(osName, out).Found? ==>
      GetSystemUuid(osName, out) == Some(GetSystemUuidAsWritten(osName, out).uuid)
    ensures GetSystemUuidAsWritten(osName, out) == Crashed <==>
      Supported(osName) && GetSystemUuid(osName, out).None?
  {
  }

  /** A failing `dmidecode` on Linux crashes `get_system_uuid` instead of yielding None. */
  lemma LinuxFailureCrashes()
    ensures GetSystemUuidAsWritten("Linux", CommandFailed) == Crashed
    ensures GetSystemUuid("Linux", CommandFailed) == None
  {
  }

  /** The mac address read is the part of the output just before the last quote. */
  lemma FetchMacSecondLast(text: string, x: string)
    requires |Split(text, '"')| >= 2 && Split(text, '"')[|Split(text, '"')| - 2] == x
    ensures FetchMac(Output(text)) == Some(x)
  {
  }

  /**
   * On an `ioreg` line such as `"IOPlatformUUID" = "<uuid>"` followed by a quote-free
   * tail, the parse returns the last quoted value.
   */
  lemma MacParsesLastQuoted(head: string, uuid: string, tail: string)
    requires '"' !in uuid && '"' !in tail
    ensures FetchMac(Output(head + ['"'] + uuid + ['"'] + tail)) == Some(uuid)
  {
    SplitQuoted(head, uuid, tail, '"');
    FetchMacSecondLast(head + ['"'] + uuid + ['"'] + tail, uuid);
  }
}
