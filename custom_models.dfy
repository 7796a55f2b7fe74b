/** The `customModels` table: user-supplied model endpoints whose API key is stored
    encrypted. */
module CustomModels {
  import opened Wrappers
  import opened Records
  import opened Db
  import Identity
  import Encryption

  const CustomModelNotFound := "Custom model not found"

  /** The providers the `update` arguments accept. */
  datatype Provider = OpenRouter | OpenAI | Anthropic | Xai {
    function Name(): string {
      match this
      case OpenRouter => "openrouter"
      case OpenAI => "openai"
      case Anthropic => "anthropic"
      case Xai => "xai"
    }
  }

  /** `getCustomModelById`: the model when it exists and the caller owns it, else null. */
  function CustomModelById(models: map<CustomModelId, CustomModel>, caller: UserId, id: CustomModelId): Option<CustomModel> {
    if id in models && models[id].userId == caller then Some(models[id]) else None
  }

  /** Ownership scoping: the owner sees its model, and to anyone else a model of another
      user looks exactly like one that does not exist. */
  lemma ForeignModelLooksMissing(models: map<CustomModelId, CustomModel>, caller: UserId, id: CustomModelId, m: CustomModel)
    ensures CustomModelById(models[id := m], m.userId, id) == Some(m)
    ensures m.userId != caller ==>
      CustomModelById(models[id := m], caller, id) == CustomModelById(models - {id}, caller, id) == None
  {
  }

  /** The model `create` inserts: an OpenAI endpoint with every other field empty. */
  function NewCustomModel(caller: UserId): CustomModel {
    CustomModel(caller, "openai", "", "", "", None)
  }

  /** `create`: inserts an empty model of the caller and returns it. */
  method Create(s: Store, subject: Option<string>) returns (r: Result<Option<CustomModel>>)
    requires s.Valid()
    modifies s
    ensures s.Valid()
    ensures match Identity.CurrentUserOrThrow(old(s.users), subject)
      case Err(e) => r == Err(e) && s.Snapshot() == old(s.Snapshot())
      case Ok(caller) =>
        var id := old(s.nextId);
        && r == Ok(Some(NewCustomModel(caller)))
        && id !in old(s.customModels)
        && s.Snapshot() == old(s.Snapshot()).(customModels := old(s.customModels)[id := NewCustomModel(caller)], nextId := id + 1)
  {
    var user := Identity.CurrentUserOrThrow(s.users, subject);
    if user.Err? {
      return Err(user.msg);
    }
    var id := s.NewId();
    s.customModels := s.customModels[id := NewCustomModel(user.value)];
    r := Ok(CustomModelById(s.customModels, user.value, id));
  }

  /** The optional fields of `update`; `None` is an argument left out. The key arrives
      in plain text and is stored encrypted. */
  datatype CustomModelPatch = CustomModelPatch(
    name: Option<string>,
    provider: Option<Provider>,
    modelId: Option<string>,
    apiKey: Option<string>,
    baseUrl: Option<string>)

  /** The model after the update, or the encryption error that stops it. */
  function ApplyCustomModelPatch(c: Encryption.Cipher, m: CustomModel, p: CustomModelPatch): Result<CustomModel> {
    var m := if p.name.Some? then m.(name := p.name.value) else m;
    var m := if p.provider.Some? then m.(provider := p.provider.value.Name()) else m;
    var m := if p.modelId.Some? then m.(modelId := p.modelId.value) else m;
    var key := if p.apiKey.Some? then Encryption.EncryptApiKey(c, p.apiKey.value) else Ok(m.encryptedApiKey);
    if key.Err? then Err(key.msg)
    else
      var m := m.(encryptedApiKey := key.value);
      Ok(if p.baseUrl.Some? then m.(baseUrl := if p.baseUrl.value == "" then None else Some(p.baseUrl.value)) else m)
  }

  /** Provided fields take their new value (the key encrypted, "" kept as the "no key"
      sentinel; an empty base URL clearing the field), the rest keep theirs, and the
      update fails exactly when encrypting a provided non-empty key fails. */
  lemma CustomModelPatchSpec(c: Encryption.Cipher, m: CustomModel, p: CustomModelPatch)
    ensures var r := ApplyCustomModelPatch(c, m, p);
      && (r.Err? <==> p.apiKey.Some? && p.apiKey.value != [] && c.aesEncrypt(p.apiKey.value, Encryption.Key(c)).Err?)
      && (r.Err? ==> r.msg == Encryption.EncryptFailed)
      && (r.Ok? ==>
          && r.value.userId == m.userId
          && r.value.name == p.name.GetOr(m.name)
          && r.value.provider == (if p.provider.Some? then p.provider.value.Name() else m.provider)
          && r.value.modelId == p.modelId.GetOr(m.modelId)
          && (p.apiKey.None? ==> r.value.encryptedApiKey == m.encryptedApiKey)
          && (p.apiKey == Some([]) ==> r.value.encryptedApiKey == [])
          && (p.apiKey.Some? && p.apiKey.value != [] ==>
                r.value.encryptedApiKey == c.aesEncrypt(p.apiKey.value, Encryption.Key(c)).value)
          && (p.baseUrl.None? ==> r.value.baseUrl == m.baseUrl)
          && (p.baseUrl == Some([]) ==> r.value.baseUrl.None?)
          && (p.baseUrl.Some? && p.baseUrl.value != [] ==> r.value.baseUrl == p.baseUrl))
  {
  }

  /** `update`: patches the caller's model with the provided fields and returns null. */
  method Update(s: Store, subject: Option<string>, c: Encryption.Cipher, id: CustomModelId, patch: CustomModelPatch) returns (r: Outcome)
    requires s.Valid()
    modifies s
    ensures s.Valid()
    ensures match Identity.CurrentUserOrThrow(old(s.users), subject)
      case Err(e) => r == Fail(e) && s.Snapshot() == old(s.Snapshot())
      case Ok(caller) =>
        if CustomModelById(old(s.customModels), caller, id).None? then
          r == Fail(CustomModelNotFound) && s.Snapshot() == old(s.Snapshot())
        else
          match ApplyCustomModelPatch(c, old(s.customModels)[id], patch)
          case Err(e) => r == Fail(e) && s.Snapshot() == old(s.Snapshot())
          case Ok(m) => r == Pass && s.Snapshot() == old(s.Snapshot()).(customModels := old(s.customModels)[id := m])
  {
    var user := Identity.CurrentUserOrThrow(s.users, subject);
    if user.Err? {
      return Fail(user.msg);
    }
    var existing := CustomModelById(s.customModels, user.value, id);
    if existing.None? {
      return Fail(CustomModelNotFound);
    }
    var updated := ApplyCustomModelPatch(c, s.customModels[id], patch);
    if updated.Err? {
      return Fail(updated.msg);
    }
    s.customModels := s.customModels[id := updated.value];
    r := Pass;
  }

  predicate AllOwned(models: map<CustomModelId, CustomModel>, caller: UserId, ids: seq<CustomModelId>) {
    forall i :: 0 <= i < |ids| ==> CustomModelById(models, caller, ids[i]).Some?
  }

  predicate Distinct(ids: seq<CustomModelId>) {
    forall i, j :: 0 <= i < j < |ids| ==> ids[i] != ids[j]
  }

  /** `removeByIds`: all or nothing. When any id is missing or foreign it throws and
      deletes nothing; otherwise it deletes every id. An id listed twice makes the
      second delete fail, and the mutation is then rolled back. */
  method RemoveByIds(s: Store, subject: Option<string>, ids: seq<CustomModelId>) returns (r: Outcome)
    requires s.Valid()
    modifies s
    ensures s.Valid()
    ensures match Identity.CurrentUserOrThrow(old(s.users), subject)
      case Err(e) => r == Fail(e) && s.Snapshot() == old(s.Snapshot())
      case Ok(caller) =>
        if !AllOwned(old(s.customModels), caller, ids) then
          r == Fail(CustomModelNotFound) && s.Snapshot() == old(s.Snapshot())
        else if !Distinct(ids) then
          r == Fail(DeleteMissingDocument) && s.Snapshot() == old(s.Snapshot())
        else
          r == Pass && s.Snapshot() == old(s.Snapshot()).(customModels := old(s.customModels) - set i | 0 <= i < |ids| :: ids[i])
  {
    var user := Identity.CurrentUserOrThrow(s.users, subject);
    if user.Err? {
      return Fail(user.msg);
    }
    for i := 0 to |ids|
      invariant AllOwned(s.customModels, user.value, ids[..i])
    {
      if CustomModelById(s.customModels, user.value, ids[i]).None? {
        return Fail(CustomModelNotFound);
      }
    }
    assert ids[..|ids|] == ids;
    var saved := s.Snapshot();
    for i := 0 to |ids|
      invariant s.Valid()
      invariant Distinct(ids[..i])
      invariant s.Snapshot() == saved.(customModels := saved.customModels - set j | 0 <= j < i :: ids[j])
    {
      if ids[i] !in s.customModels {
        assert ids[i] in (set j | 0 <= j < i :: ids[j]);
        assert !Distinct(ids);
        s.Rollback(saved);
        return Fail(DeleteMissingDocument);
      }
      assert ids[i] !in (set j | 0 <= j < i :: ids[j]);
      s.customModels := s.customModels - {ids[i]};
      assert (set j | 0 <= j < i + 1 :: ids[j]) == (set j | 0 <= j < i :: ids[j]) + {ids[i]};
    }
    assert ids[..|ids|] == ids;
    r := Pass;
  }
}
