/**
 * The manifest file under its lock: the update transaction of
 * `src/core/config.ts` and the three transactions of
 * `src/server/providerSessionBinding.ts`, which decide their result while they
 * hold the lock and write only when something changes.
 */
module ManifestFile {
  import opened Common
  import opened SessionId
  import opened DeskManifest
  import opened ManifestTheorems

  datatype Attempt = Unreadable | Settled(result: Binding)

  class File {
    var manifest: Manifest

    constructor (m: Manifest)
      ensures manifest == m
    {
      manifest := m;
    }

    /** Whether the stored session identities let the file be parsed. */
    method ReadCheck() returns (ok: bool)
      ensures ok <==> Readable(manifest)
    {
      var ss := CollectSessions(manifest);
      ok := true;
      for i := 0 to |ss|
        invariant ok <==> forall k :: 0 <= k < i ==> IsValidSessionId(ss[k].sessionId)
      {
        if !IsValidSessionId(ss[i].sessionId) { ok := false; }
      }
      var verdict := CheckGlobalUniqueness(SessionIds(ss));
      ok := ok && verdict.Unique?;
    }

    /** Every mutation of the file: read, apply, write back, or leave it as it is. */
    method UpdateManifestFile(env: Env, op: Op) returns (written: bool)
      modifies this
      ensures manifest == Update(env, old(manifest), op)
      ensures written <==> Readable(old(manifest)) && Apply(env, old(manifest), op).Ok?
    {
      var ok := ReadCheck();
      if !ok { return false; }
      match Apply(env, manifest, op) {
        case Ok(next) =>
          manifest := next;
          return true;
        case Err(_) =>
          return false;
      }
    }

    method BindProviderSessionIdentity(env: Env, id: string, provider: string, resume: string) returns (r: Attempt)
      modifies this
      ensures if Readable(old(manifest))
        then (r.Settled? && (r.result, manifest) == Bind(env, old(manifest), id, provider, resume))
        else r == Unreadable && manifest == old(manifest)
    {
      var ok := ReadCheck();
      if !ok { return Unreadable; }
      var target := Target(manifest, id);
      if target.None? { return Settled(NotFound); }
      if target.value.agent != Some(provider) { return Settled(AgentMismatch); }
      if !env.validId(provider, resume) { return Settled(InvalidId); }
      var owner := ConflictingOwner(id, resume);
      if owner.Some? { return Settled(Conflict); }
      if target.value.resume == Some(resume) { return Settled(AlreadyBound); }
      if Truthy(target.value.resume) { return Settled(Mismatch); }
      manifest := SetResume(manifest, id, Some(resume));
      return Settled(Persisted);
    }

    /** The first other session that holds this provider identity. */
    method ConflictingOwner(id: string, resume: string) returns (owner: Option<Session>)
      ensures owner.Some? <==> Conflicts(manifest, id, resume)
    {
      var ss := CollectSessions(manifest);
      for i := 0 to |ss|
        invariant forall k :: 0 <= k < i ==> ss[k].sessionId == id || ss[k].resume != Some(resume)
      {
        if ss[i].sessionId != id && ss[i].resume == Some(resume) {
          assert ss[i] in ss;
          return Some(ss[i]);
        }
      }
      return None;
    }

    method ClearProviderSessionIdentity(env: Env, id: string, provider: string, expected: Option<string>) returns (r: Attempt)
      modifies this
      ensures if Readable(old(manifest)) || (expected.Some? && !env.validId(provider, expected.value))
        then (r.Settled? && (r.result, manifest) == Clear(env, old(manifest), id, provider, expected))
        else r == Unreadable && manifest == old(manifest)
    {
      if expected.Some? && !env.validId(provider, expected.value) { return Settled(InvalidId); }
      var ok := ReadCheck();
      if !ok { return Unreadable; }
      var target := Target(manifest, id);
      if target.None? { return Settled(NotFound); }
      if target.value.agent != Some(provider) { return Settled(AgentMismatch); }
      if target.value.resume.None? { return Settled(AlreadyCleared); }
      if target.value.resume != expected { return Settled(Mismatch); }
      manifest := SetResume(manifest, id, None);
      return Settled(Cleared);
    }

    method ReplaceProviderSessionIdentity(env: Env, id: string, provider: string, expected: string, resume: string) returns (r: Attempt)
      modifies this
      ensures if Readable(old(manifest)) || !env.validId(provider, expected) || !env.validId(provider, resume)
        then (r.Settled? && (r.result, manifest) == Replace(env, old(manifest), id, provider, expected, resume))
        else r == Unreadable && manifest == old(manifest)
    {
      if !env.validId(provider, expected) || !env.validId(provider, resume) { return Settled(InvalidId); }
      var ok := ReadCheck();
      if !ok { return Unreadable; }
      var target := Target(manifest, id);
      if target.None? { return Settled(NotFound); }
      if target.value.agent != Some(provider) { return Settled(AgentMismatch); }
      var owner := ConflictingOwner(id, resume);
      if owner.Some? { return Settled(Conflict); }
      if target.value.resume == Some(resume) { return Settled(AlreadyReplaced); }
      if target.value.resume != Some(expected) { return Settled(Mismatch); }
      manifest := SetResume(manifest, id, Some(resume));
      return Settled(Replaced);
    }
  }
}
