/** The recovery blob's server table: homeserver URLs interned once and referenced by a 32-bit index,
    and the index check on the way back in. */
module RecoveryBlob {
  import opened Wrappers
  import opened Rfc4648
  import opened FirstSeenOrder

  type Url = string

  /** A table position cast to an unsigned 32-bit integer. */
  function AsU32(i: nat): (n: nat)
    ensures n <= i && (i < 0x1_0000_0000 ==> n == i)
  {
    i % 0x1_0000_0000
  }

  datatype GroupEntry = GroupEntry(masterKey: seq<Byte>, hostingServerUrl: Url)

  datatype RecoveredGroup = RecoveredGroup(masterKey: seq<Byte>, serverIndex: nat)

  datatype Blob = Blob(
    identityKeypair: seq<Byte>,
    servers: seq<Url>,
    profileKey: seq<Byte>,
    displayName: string,
    groups: seq<RecoveredGroup>,
    storageKey: seq<Byte>)

  // ---- build_recovery_blob ----

  function UrlsOf(groups: seq<GroupEntry>): seq<Url> {
    seq(|groups|, i requires 0 <= i < |groups| => groups[i].hostingServerUrl)
  }

  function ServerTable(accountServers: seq<Url>, groups: seq<GroupEntry>): seq<Url> {
    FirstSeen(accountServers + UrlsOf(groups))
  }

  /** Where a group's server really is in the table. */
  function ServerOf(accountServers: seq<Url>, groups: seq<GroupEntry>, g: nat): (i: nat)
    requires g < |groups|
    ensures i < |ServerTable(accountServers, groups)|
    ensures ServerTable(accountServers, groups)[i] == groups[g].hostingServerUrl
  {
    FirstSeenTable(accountServers + UrlsOf(groups));
    assert (accountServers + UrlsOf(groups))[|accountServers| + g] == groups[g].hostingServerUrl;
    IndexIn(ServerTable(accountServers, groups), groups[g].hostingServerUrl)
  }

  class Interner {
    var servers: seq<Url>

    constructor ()
      ensures servers == []
    {
      servers := [];
    }

    /** The position of `url`, pushing it at the end when it is new, as an unsigned 32-bit index. */
    method Intern(url: Url, ghost met: seq<Url>) returns (index: nat)
      requires servers == FirstSeen(met)
      modifies this
      ensures servers == FirstSeen(met + [url])
      ensures url in servers && index == AsU32(IndexIn(servers, url))
    {
      assert (met + [url])[..|met + [url]| - 1] == met;
      var i := 0;
      while i < |servers|
        invariant 0 <= i <= |servers|
        invariant forall k | 0 <= k < i :: servers[k] != url
      {
        if servers[i] == url {
          return AsU32(i);
        }
        i := i + 1;
      }
      servers := servers + [url];
      index := AsU32(|servers| - 1);
    }
  }

  /** The first `n` groups are recovered, each with its own server's index. */
  predicate Recovered(done: seq<RecoveredGroup>, accountServers: seq<Url>, groups: seq<GroupEntry>, n: nat)
    requires n <= |groups|
  {
    && |done| == n
    && forall g | 0 <= g < n ::
         done[g] == RecoveredGroup(groups[g].masterKey, AsU32(ServerOf(accountServers, groups, g)))
  }

  predicate IsBuiltFrom(blob: Blob, accountServers: seq<Url>, groups: seq<GroupEntry>) {
    && blob.servers == ServerTable(accountServers, groups)
    && Recovered(blob.groups, accountServers, groups, |groups|)
  }

  method BuildRecoveryBlob(
      identityKeypair: seq<Byte>, accountServers: seq<Url>, profileKey: seq<Byte>,
      displayName: string, groups: seq<GroupEntry>, storageKey: seq<Byte>)
    returns (blob: Blob)
    ensures IsBuiltFrom(blob, accountServers, groups)
    ensures FirstSeen(accountServers) <= blob.servers && Distinct(blob.servers)
    ensures forall u :: u in blob.servers <==>
              u in accountServers || exists g :: 0 <= g < |groups| && groups[g].hostingServerUrl == u
    ensures |blob.groups| == |groups|
    ensures forall g | 0 <= g < |groups| ::
              && blob.groups[g].masterKey == groups[g].masterKey
              && exists i :: 0 <= i < |blob.servers| && blob.servers[i] == groups[g].hostingServerUrl
                   && blob.groups[g].serverIndex == i % 0x1_0000_0000
    ensures blob.identityKeypair == identityKeypair && blob.profileKey == profileKey
    ensures blob.displayName == displayName && blob.storageKey == storageKey
  {
    var table := new Interner();
    for i := 0 to |accountServers|
      invariant fresh(table)
      invariant table.servers == FirstSeen(accountServers[..i])
    {
      var _ := table.Intern(accountServers[i], accountServers[..i]);
      assert accountServers[..i + 1] == accountServers[..i] + [accountServers[i]];
    }
    assert accountServers[..|accountServers|] == accountServers == Met(accountServers, groups, 0);
    var recovered: seq<RecoveredGroup> := [];
    for i := 0 to |groups|
      invariant fresh(table)
      invariant table.servers == FirstSeen(Met(accountServers, groups, i))
      invariant Recovered(recovered, accountServers, groups, i)
    {
      var index := table.Intern(groups[i].hostingServerUrl, Met(accountServers, groups, i));
      GroupRecovered(table.servers, recovered, accountServers, groups, i, index);
      recovered := recovered + [RecoveredGroup(groups[i].masterKey, index)];
    }
    assert Met(accountServers, groups, |groups|) == accountServers + UrlsOf(groups) by {
      assert groups[..|groups|] == groups;
    }
    blob := Blob(identityKeypair, table.servers, profileKey, displayName, recovered, storageKey);
    FirstSeenGrows(accountServers, UrlsOf(groups));
    TableSpelledOut(accountServers, groups);
  }

  lemma TableSpelledOut(accountServers: seq<Url>, groups: seq<GroupEntry>)
    ensures var servers := ServerTable(accountServers, groups);
            && Distinct(servers)
            && (forall u :: u in servers <==>
                  u in accountServers || exists g :: 0 <= g < |groups| && groups[g].hostingServerUrl == u)
            && (forall g | 0 <= g < |groups| ::
                  var i := ServerOf(accountServers, groups, g);
                  servers[i] == groups[g].hostingServerUrl && AsU32(i) == i % 0x1_0000_0000)
  {
    FirstSeenTable(accountServers + UrlsOf(groups));
    forall u ensures u in UrlsOf(groups) <==> exists g :: 0 <= g < |groups| && groups[g].hostingServerUrl == u {
      if g :| 0 <= g < |groups| && groups[g].hostingServerUrl == u {
        assert UrlsOf(groups)[g] == u;
      }
    }
  }

  /** The URLs met before group `i`. */
  ghost function Met(accountServers: seq<Url>, groups: seq<GroupEntry>, i: nat): seq<Url>
    requires i <= |groups|
  {
    accountServers + UrlsOf(groups[..i])
  }

  lemma MetNext(accountServers: seq<Url>, groups: seq<GroupEntry>, i: nat)
    requires i < |groups|
    ensures Met(accountServers, groups, i + 1) == Met(accountServers, groups, i) + [groups[i].hostingServerUrl]
    ensures Met(accountServers, groups, i + 1) + UrlsOf(groups[i + 1..]) == accountServers + UrlsOf(groups)
  {
  }

  /** The table only grows, so a group's index is already final when it is handed out. */
  lemma GroupIndex(accountServers: seq<Url>, groups: seq<GroupEntry>, i: nat)
    requires i < |groups|
    ensures var met := Met(accountServers, groups, i + 1);
            && met == Met(accountServers, groups, i) + [groups[i].hostingServerUrl]
            && groups[i].hostingServerUrl in FirstSeen(met)
            && IndexIn(FirstSeen(met), groups[i].hostingServerUrl) == ServerOf(accountServers, groups, i)
  {
    var met := Met(accountServers, groups, i + 1);
    var rest := UrlsOf(groups[i + 1..]);
    MetNext(accountServers, groups, i);
    FirstSeenTable(met);
    FirstSeenGrows(met, rest);
    assert groups[i].hostingServerUrl == met[|met| - 1];
    IndexStable(FirstSeen(met), FirstSeen(met + rest), groups[i].hostingServerUrl);
  }

  lemma GroupRecovered(table: seq<Url>, done: seq<RecoveredGroup>, accountServers: seq<Url>, groups: seq<GroupEntry>,
                       i: nat, index: nat)
    requires i < |groups| && Recovered(done, accountServers, groups, i)
    requires table == FirstSeen(Met(accountServers, groups, i) + [groups[i].hostingServerUrl])
    requires groups[i].hostingServerUrl in table && index == AsU32(IndexIn(table, groups[i].hostingServerUrl))
    ensures table == FirstSeen(Met(accountServers, groups, i + 1))
    ensures Recovered(done + [RecoveredGroup(groups[i].masterKey, index)], accountServers, groups, i + 1)
  {
    GroupIndex(accountServers, groups, i);
  }

  // ---- Sealing and opening ----

  const VERSION: Byte := 4
  const NONCE_LEN := 12
  const GCM_TAG_LEN := 16

  /** The protobuf codec and AES-256-GCM. */
  datatype Primitives = Primitives(
    encode: Blob -> seq<Byte>,
    decode: seq<Byte> -> Option<Blob>,
    encrypt: (seq<Byte>, seq<Byte>, seq<Byte>) -> seq<Byte>,
    decrypt: (seq<Byte>, seq<Byte>, seq<Byte>) -> Option<seq<Byte>>)
  {
    ghost predicate RoundTrips() {
      && (forall b :: decode(encode(b)) == Some(b))
      && (forall k, n, x :: decrypt(k, n, encrypt(k, n, x)) == Some(x))
      && (forall k, n, x :: |encrypt(k, n, x)| >= GCM_TAG_LEN)
    }
  }

  function EncryptBlob(p: Primitives, blob: Blob, key: seq<Byte>, nonce: seq<Byte>): seq<Byte>
    requires |nonce| == NONCE_LEN
  {
    [VERSION] + nonce + p.encrypt(key, nonce, p.encode(blob))
  }

  datatype Error = TooShort | UnsupportedVersion | WrongKey | BadProto | IndexOutOfRange

  /** The check is made in 32 bits, on the table's length as well. */
  predicate IndicesInRange(blob: Blob) {
    forall g | 0 <= g < |blob.groups| :: blob.groups[g].serverIndex < AsU32(|blob.servers|)
  }

  function OpenBlob(p: Primitives, sealed: seq<Byte>, key: seq<Byte>): Result<Blob, Error> {
    if |sealed| < 1 + NONCE_LEN + GCM_TAG_LEN then Err(TooShort)
    else if sealed[0] != VERSION then Err(UnsupportedVersion)
    else match p.decrypt(key, sealed[1..1 + NONCE_LEN], sealed[1 + NONCE_LEN..])
      case None => Err(WrongKey)
      case Some(body) =>
        match p.decode(body)
        case None => Err(BadProto)
        case Some(blob) => if IndicesInRange(blob) then Ok(blob) else Err(IndexOutOfRange)
  }

  method DecryptBlob(p: Primitives, sealed: seq<Byte>, key: seq<Byte>) returns (r: Result<Blob, Error>)
    ensures r == OpenBlob(p, sealed, key)
    ensures |sealed| < 29 ==> r == Err(TooShort)
    ensures |sealed| >= 29 && sealed[0] != 4 ==> r == Err(UnsupportedVersion)
    ensures |sealed| >= 29 && sealed[0] == 4 ==>
              match p.decrypt(key, sealed[1..13], sealed[13..])
              case None => r == Err(WrongKey)
              case Some(body) =>
                match p.decode(body)
                case None => r == Err(BadProto)
                case Some(blob) =>
                  r == if exists g :: 0 <= g < |blob.groups|
                                      && blob.groups[g].serverIndex >= |blob.servers| % 0x1_0000_0000
                       then Err(IndexOutOfRange) else Ok(blob)
  {
    if |sealed| < 1 + NONCE_LEN + GCM_TAG_LEN {
      return Err(TooShort);
    }
    if sealed[0] != VERSION {
      return Err(UnsupportedVersion);
    }
    var nonce, ciphertext := sealed[1..1 + NONCE_LEN], sealed[1 + NONCE_LEN..];
    var body := p.decrypt(key, nonce, ciphertext);
    if body.None? {
      return Err(WrongKey);
    }
    var parsed := p.decode(body.value);
    if parsed.None? {
      return Err(BadProto);
    }
    var blob := parsed.value;
    var n := AsU32(|blob.servers|);
    for i := 0 to |blob.groups|
      invariant forall g | 0 <= g < i :: blob.groups[g].serverIndex < n
    {
      if blob.groups[i].serverIndex >= n {
        return Err(IndexOutOfRange);
      }
    }
    return Ok(blob);
  }

  /** A group comes back with the server it went in with. */
  predicate Resolves(blob: Blob, groups: seq<GroupEntry>) {
    && |blob.groups| == |groups|
    && forall g | 0 <= g < |groups| ::
         && blob.groups[g].masterKey == groups[g].masterKey
         && blob.groups[g].serverIndex < |blob.servers|
         && blob.servers[blob.groups[g].serverIndex] == groups[g].hostingServerUrl
  }

  /** A built blob opens again with every group on its own server exactly when each group's server lies
      below the table's length taken modulo 2^32; any table shorter than 2^32 meets that. */
  lemma BuiltBlobComesBack(blob: Blob, accountServers: seq<Url>, groups: seq<GroupEntry>)
    requires IsBuiltFrom(blob, accountServers, groups)
    ensures IndicesInRange(blob) && Resolves(blob, groups) <==>
            forall g | 0 <= g < |groups| :: ServerOf(accountServers, groups, g) < AsU32(|blob.servers|)
    ensures |blob.servers| < 0x1_0000_0000 ==> IndicesInRange(blob) && Resolves(blob, groups)
  {
    FirstSeenTable(accountServers + UrlsOf(groups));
    if IndicesInRange(blob) && Resolves(blob, groups) {
      forall g | 0 <= g < |groups| ensures ServerOf(accountServers, groups, g) < AsU32(|blob.servers|) {
        assert blob.servers[blob.groups[g].serverIndex] == blob.servers[ServerOf(accountServers, groups, g)];
      }
    }
  }

  lemma SealedBlobOpens(p: Primitives, blob: Blob, key: seq<Byte>, nonce: seq<Byte>)
    requires p.RoundTrips() && |nonce| == 12
    ensures EncryptBlob(p, blob, key, nonce) == [4] + nonce + p.encrypt(key, nonce, p.encode(blob))
    ensures OpenBlob(p, EncryptBlob(p, blob, key, nonce), key)
         == if IndicesInRange(blob) then Ok(blob) else Err(IndexOutOfRange)
  {
    var sealed := EncryptBlob(p, blob, key, nonce);
    assert sealed[1..1 + NONCE_LEN] == nonce;
    assert sealed[1 + NONCE_LEN..] == p.encrypt(key, nonce, p.encode(blob));
  }

  /** Whatever bytes are opened: every index in the blob they give is valid. */
  lemma OpenedIndicesAreValid(p: Primitives, sealed: seq<Byte>, key: seq<Byte>, g: nat)
    requires OpenBlob(p, sealed, key).Ok?
    ensures var blob := OpenBlob(p, sealed, key).value;
            g < |blob.groups| ==> blob.groups[g].serverIndex < |blob.servers|
  {
    var blob := OpenBlob(p, sealed, key).value;
    assert AsU32(|blob.servers|) <= |blob.servers|;
  }

  /** What the cast can break is which server: with one URL more than 2^32, a group on the last one passes
      the check with the first server's index. */
  lemma CastCanMoveAGroup(blob: Blob, accountServers: seq<Url>, master: seq<Byte>)
    requires Distinct(accountServers) && |accountServers| == 0x1_0000_0001
    requires IsBuiltFrom(blob, accountServers, [GroupEntry(master, accountServers[0x1_0000_0000])])
    ensures IndicesInRange(blob) && blob.groups[0].serverIndex == 0
    ensures blob.servers[0] != accountServers[0x1_0000_0000]
    ensures !Resolves(blob, [GroupEntry(master, accountServers[0x1_0000_0000])])
  {
    var last := accountServers[0x1_0000_0000];
    var groups := [GroupEntry(master, last)];
    assert UrlsOf(groups) == [last];
    DistinctStays(accountServers);
    FirstSeenGrows(accountServers, [last]);
    assert (accountServers + [last])[..|accountServers|] == accountServers;
    assert blob.servers == accountServers;
    IndexOfDistinct(accountServers, 0x1_0000_0000);
    assert ServerOf(accountServers, groups, 0) == 0x1_0000_0000;
  }

  lemma ManyUrls(n: nat) returns (urls: seq<Url>)
    ensures |urls| == n && Distinct(urls)
  {
    urls := seq(n, i requires 0 <= i < n => seq(i, _ => 'a'));
    assert forall i | 0 <= i < n :: |urls[i]| == i;
  }

  /** There is an input for which every blob built from it passes the check and moves a group. */
  lemma CastMovesAGroup(master: seq<Byte>) returns (accountServers: seq<Url>, groups: seq<GroupEntry>)
    ensures forall blob | IsBuiltFrom(blob, accountServers, groups) ::
              IndicesInRange(blob) && !Resolves(blob, groups)
  {
    accountServers := ManyUrls(0x1_0000_0001);
    groups := [GroupEntry(master, accountServers[0x1_0000_0000])];
    forall blob | IsBuiltFrom(blob, accountServers, groups)
      ensures IndicesInRange(blob) && !Resolves(blob, groups)
    {
      CastCanMoveAGroup(blob, accountServers, master);
    }
  }
}
