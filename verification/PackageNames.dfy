/**
 File names of package payloads and manifests, and how delivery finds both files again from the
 names alone.
 */
module PackageNames {
  import opened Wrappers

  const WARC_EXTENSION := ".warc.zst"
  const MANIFEST_SUFFIX := ".manifest.jsonl"

  predicate HasSuffix(s: string, suffix: string) {
    |suffix| <= |s| && s[|s| - |suffix|..] == suffix
  }

  /** strings.ToLower, which for the suffix compared here differs from the identity on ASCII only. */
  function ToLower(s: string): (r: string)
    ensures |r| == |s|
  {
    seq(|s|, i requires 0 <= i < |s| => if 'A' <= s[i] <= 'Z' then s[i] + 32 as char else s[i])
  }

  /** filepath.Ext: from the last dot of the last path element, or empty. */
  function Ext(path: string): (r: string)
    ensures r == "" || (r[0] == '.' && '.' !in r[1..])
    ensures '/' !in r
  {
    if path == "" || path[|path| - 1] == '/' then ""
    else if path[|path| - 1] == '.' then "."
    else
      var front := Ext(path[..|path| - 1]);
      if front == "" then "" else front + [path[|path| - 1]]
  }

  /** No dot in the last path element. */
  ghost predicate DotBeforeSlash(path: string) {
    forall i :: 0 <= i < |path| && path[i] == '.' ==> exists j :: i < j < |path| && path[j] == '/'
  }

  /** The extension ends the path, and is empty only if the last path element has no dot. */
  lemma ExtIsSuffix(path: string)
    ensures HasSuffix(path, Ext(path))
    ensures Ext(path) == "" <==> DotBeforeSlash(path)
  {
    ExtEndsPath(path);
    ExtIsEmpty(path);
  }

  lemma {:induction false} ExtEndsPath(path: string)
    ensures HasSuffix(path, Ext(path))
  {
    if path != "" {
      var last := |path| - 1;
      ExtEndsPath(path[..last]);
      assert path == path[..last] + [path[last]];
    }
  }

  lemma {:induction false} ExtIsEmpty(path: string)
    ensures Ext(path) == "" <==> DotBeforeSlash(path)
  {
    if path != "" {
      var last := |path| - 1;
      ExtIsEmpty(path[..last]);
      assert path == path[..last] + [path[last]];
      if path[last] != '/' && path[last] != '.' {
        SameDots(path[..last], path[last]);
      }
    }
  }

  lemma SameDots(front: string, c: char)
    requires c != '.' && c != '/'
    ensures DotBeforeSlash(front + [c]) <==> DotBeforeSlash(front)
  {
    var path := front + [c];
    if DotBeforeSlash(path) {
      forall i | 0 <= i < |front| && front[i] == '.' ensures exists j :: i < j < |front| && front[j] == '/' {
        assert path[i] == '.';
        var j :| i < j < |path| && path[j] == '/';
        assert front[j] == '/';
      }
    }
    if DotBeforeSlash(front) {
      forall i | 0 <= i < |path| && path[i] == '.' ensures exists j :: i < j < |path| && path[j] == '/' {
        assert front[i] == '.';
        var j :| i < j < |front| && front[j] == '/';
        assert path[j] == '/';
      }
    }
  }

  predicate IsHex(s: string) {
    forall i :: 0 <= i < |s| ==> '0' <= s[i] <= '9' || 'a' <= s[i] <= 'f'
  }

  predicate IsIdentifierChar(c: char) {
    'A' <= c <= 'Z' || 'a' <= c <= 'z' || '0' <= c <= '9' || c in "._:-"
  }

  /** identifierPattern: object IDs and project names. */
  predicate IsIdentifier(s: string) {
    1 <= |s| <= 128 && forall i :: 0 <= i < |s| ==> IsIdentifierChar(s[i])
  }

  const BLAKE3 := "blake3:"

  /** The checksums that beforeCreate admits. */
  predicate IsChecksum(s: string) {
    |s| == |BLAKE3| + 64 && s[..|BLAKE3|] == BLAKE3 && IsHex(s[|BLAKE3|..])
  }

  function PackageExtension(identity: bool, artifactFilename: string): string {
    if !identity then WARC_EXTENSION
    else if HasSuffix(ToLower(artifactFilename), WARC_EXTENSION) then WARC_EXTENSION
    else Ext(artifactFilename)
  }

  /** packageFilename: project, the first 24 hex digits of the package ID, and an extension. */
  function PackageFilename(project: string, hexId: string, identity: bool, artifactFilename: string): string
    requires |hexId| >= 24
  {
    project + "-" + hexId[..24] + PackageExtension(identity, artifactFilename)
  }

  /** A merged payload is a .warc.zst file; an identity payload keeps the ending of its artifact, with
      .warc.zst as one ending however it is written. */
  lemma PayloadEnding(project: string, hexId: string, identity: bool, artifactFilename: string)
    requires |hexId| >= 24
    ensures
      var name := PackageFilename(project, hexId, identity, artifactFilename);
      && |name| > |project| + 24 && name[..|project|] == project && name[|project|] == '-'
      && (forall i :: 0 <= i < 24 ==> name[|project| + 1 + i] == hexId[i])
      && (!identity || HasSuffix(ToLower(artifactFilename), ".warc.zst") ==> name[|project| + 25..] == ".warc.zst")
      && (identity && !HasSuffix(ToLower(artifactFilename), ".warc.zst") ==>
            && HasSuffix(artifactFilename, name[|project| + 25..])
            && (name[|project| + 25..] == "" <==> DotBeforeSlash(artifactFilename)))
  {
    ExtIsSuffix(artifactFilename);
    var name := PackageFilename(project, hexId, identity, artifactFilename);
    assert name[..|project|] == project;
    assert name[|project| + 25..] == PackageExtension(identity, artifactFilename);
  }

  function ManifestFilename(filename: string): string {
    filename + MANIFEST_SUFFIX
  }

  lemma SuffixAt(s: string, suffix: string, j: nat)
    requires |suffix| <= |s| && j < |suffix|
    ensures HasSuffix(s, suffix) ==> s[|s| - |suffix| + j] == suffix[j]
  {
    assert s[|s| - |suffix| + j] == s[|s| - |suffix|..][j];
  }

  /** No payload is ever mistaken for a manifest, whatever the artifact was called. */
  lemma PayloadIsNeverAManifest(project: string, hexId: string, identity: bool, artifactFilename: string)
    requires |hexId| >= 24 && IsHex(hexId)
    ensures !HasSuffix(PackageFilename(project, hexId, identity, artifactFilename), MANIFEST_SUFFIX)
  {
    var ext := PackageExtension(identity, artifactFilename);
    var head := project + "-" + hexId[..24];
    var name := head + ext;
    var start := |name| - |MANIFEST_SUFFIX|;
    if ext == WARC_EXTENSION {
      assert name[start + 14] == ext[8];
      SuffixAt(name, MANIFEST_SUFFIX, 14);
    } else if start < |head| {
      assert name[start] == hexId[start - |project| - 1];
      SuffixAt(name, MANIFEST_SUFFIX, 0);
    } else {
      assert name[start + 9] == ext[1..][start + 8 - |head|];
      SuffixAt(name, MANIFEST_SUFFIX, 9);
    }
  }

  /** Two packages of one project share a payload name only if they share the 24-digit prefix. */
  lemma NameDeterminesShortId(project: string, hexA: string, hexB: string,
                              identityA: bool, identityB: bool, fileA: string, fileB: string)
    requires |hexA| >= 24 && |hexB| >= 24
    requires PackageFilename(project, hexA, identityA, fileA) == PackageFilename(project, hexB, identityB, fileB)
    ensures hexA[..24] == hexB[..24]
  {
    var p := |project| + 1;
    var a := PackageFilename(project, hexA, identityA, fileA);
    var b := PackageFilename(project, hexB, identityB, fileB);
    assert a[p..p + 24] == hexA[..24];
    assert b[p..p + 24] == hexB[..24];
  }

  // ---------- Artifact file names ----------

  /** filepath.Base(path) == path. The path "/" is its own base. */
  predicate IsBaseName(path: string) {
    path != "" && (path == "/" || '/' !in path)
  }

  /** safeFilename: the client's name, or the object ID in its place. */
  function SafeFilename(filename: string, objectId: string): string {
    if filename == "" || filename == "." || filename == ".." || |filename| > 255
       || !IsBaseName(filename) || '\\' in filename
    then objectId
    else filename
  }

  /** Whatever the client sent, the stored name has no directory part unless it is the bare root, no
      backslash, and at most 255 bytes. */
  lemma SafeFilenameHolds(filename: string, objectId: string)
    requires objectId != "" && |objectId| <= 128 && '/' !in objectId && '\\' !in objectId
    ensures
      var safe := SafeFilename(filename, objectId);
      && 1 <= |safe| <= 255
      && '\\' !in safe
      && ('/' in safe <==> filename == "/")
      && SafeFilename(safe, objectId) == safe
  {
  }

  /** A plain file name is kept as the client sent it, and anything else gives way to the object ID. */
  lemma PlainNamesAreKept(filename: string, objectId: string)
    requires objectId != filename
    ensures SafeFilename(filename, objectId) == filename <==>
      && 1 <= |filename| <= 255 && filename != "." && filename != ".."
      && (forall i :: 0 <= i < |filename| ==> filename[i] != '\\')
      && (filename == "/" || forall i :: 0 <= i < |filename| ==> filename[i] != '/')
    ensures SafeFilename(filename, objectId) != filename ==> SafeFilename(filename, objectId) == objectId
  {
  }

  // ---------- Resolving a delivery plan's files ----------

  const PACKAGES := "packages/"
  const MANIFESTS := "package-manifests/"

  function SourcePath(relative: string): string {
    (if HasSuffix(relative, MANIFEST_SUFFIX) then MANIFESTS else PACKAGES) + relative
  }

  /** The loop over plan.Files: every remote name gets its local source, or the attempt fails on the
      first entry whose remote name is invalid or whose source is not a bare file name. */
  method ResolveFiles(planFiles: map<string, string>, validRemoteName: string -> bool)
    returns (files: Option<map<string, string>>)
    ensures files.Some? <==>
      forall remote :: remote in planFiles ==> validRemoteName(remote) && IsBaseName(planFiles[remote])
    ensures files.Some? ==> files.value == map remote | remote in planFiles :: SourcePath(planFiles[remote])
  {
    var resolved: map<string, string> := map[];
    var rest := planFiles.Keys;
    while rest != {}
      invariant rest <= planFiles.Keys
      invariant resolved.Keys == planFiles.Keys - rest
      invariant forall remote :: remote in resolved ==>
        validRemoteName(remote) && IsBaseName(planFiles[remote]) && resolved[remote] == SourcePath(planFiles[remote])
      decreases |rest|
    {
      var remote :| remote in rest;
      if !validRemoteName(remote) || !IsBaseName(planFiles[remote]) {
        return None;
      }
      resolved := resolved[remote := SourcePath(planFiles[remote])];
      rest := rest - {remote};
    }
    files := Some(resolved);
  }

  /** The file map that makePackageDeliveryPlan stores. */
  function PlanFiles(remoteName: string, name: string): map<string, string> {
    map[remoteName := name, remoteName + MANIFEST_SUFFIX := ManifestFilename(name)]
  }

  lemma IdentifierHasNoSlash(project: string)
    requires IsIdentifier(project)
    ensures '/' !in project
  {
    forall i | 0 <= i < |project| ensures project[i] != '/' {
      assert IsIdentifierChar(project[i]);
    }
  }

  lemma PublishedPaths(project: string, hexId: string, identity: bool, artifactFilename: string)
    requires |hexId| >= 24 && IsHex(hexId) && '/' !in project
    ensures
      var name := PackageFilename(project, hexId, identity, artifactFilename);
      && IsBaseName(name) && IsBaseName(ManifestFilename(name))
      && SourcePath(name) == PACKAGES + name
      && SourcePath(ManifestFilename(name)) == MANIFESTS + ManifestFilename(name)
  {
    PayloadIsNeverAManifest(project, hexId, identity, artifactFilename);
    assert '/' !in hexId[..24];
  }

  lemma PlanPaths(remoteName: string, name: string)
    requires SourcePath(name) == PACKAGES + name
    requires SourcePath(ManifestFilename(name)) == MANIFESTS + ManifestFilename(name)
    ensures (map remote | remote in PlanFiles(remoteName, name) :: SourcePath(PlanFiles(remoteName, name)[remote]))
         == map[remoteName := PACKAGES + name, remoteName + MANIFEST_SUFFIX := MANIFESTS + ManifestFilename(name)]
  {
    assert |remoteName + MANIFEST_SUFFIX| != |remoteName|;
  }

  /** The stored file map of a package resolves to the two files that materialization published, the
      payload under the remote name and the manifest beside it. */
  lemma PlanResolvesToPublishedFiles(project: string, hexId: string, identity: bool, artifactFilename: string,
                                     remoteName: string)
    requires |hexId| >= 24 && IsHex(hexId) && IsIdentifier(project)
    ensures
      var name := PackageFilename(project, hexId, identity, artifactFilename);
      var files := PlanFiles(remoteName, name);
      && (forall remote :: remote in files ==> IsBaseName(files[remote]))
      && (map remote | remote in files :: SourcePath(files[remote]))
           == map[remoteName := PACKAGES + name, remoteName + MANIFEST_SUFFIX := MANIFESTS + ManifestFilename(name)]
  {
    IdentifierHasNoSlash(project);
    PublishedPaths(project, hexId, identity, artifactFilename);
    PlanPaths(remoteName, PackageFilename(project, hexId, identity, artifactFilename));
  }

  /** Resolving the stored plan of a package, as deliverPackageToInternetArchive does. */
  method ResolvePackagePlan(project: string, hexId: string, identity: bool, artifactFilename: string, remoteName: string,
                            validRemoteName: string -> bool) returns (files: Option<map<string, string>>)
    requires |hexId| >= 24 && IsHex(hexId) && IsIdentifier(project)
    ensures files ==
      if validRemoteName(remoteName) && validRemoteName(remoteName + MANIFEST_SUFFIX)
      then
        var name := PackageFilename(project, hexId, identity, artifactFilename);
        Some(map[remoteName := PACKAGES + name, remoteName + MANIFEST_SUFFIX := MANIFESTS + ManifestFilename(name)])
      else None
  {
    var name := PackageFilename(project, hexId, identity, artifactFilename);
    PlanResolvesToPublishedFiles(project, hexId, identity, artifactFilename, remoteName);
    assert PlanFiles(remoteName, name).Keys == {remoteName, remoteName + MANIFEST_SUFFIX};
    files := ResolveFiles(PlanFiles(remoteName, name), validRemoteName);
  }
}
