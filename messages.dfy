/**
 * What both chat clients share: chat messages, the dict view the providers
 * receive, Python's truthiness and `or` on optional strings, where an API key
 * can come from, and the model-alias lookup `MODELS.get(model, model)`.
 */
module Messages {
  import opened Wrappers
  import opened PyStr

  const System := "system"
  const User := "user"
  const Assistant := "assistant"

  /** One chat message, `{"role": role, "content": content}`. */
  datatype Message = Message(role: string, content: string)

  /** A Python `dict` from `str` to `str`. */
  type Dict = map<string, string>

  function ToDict(m: Message): (d: Dict)
    ensures "role" in d && d["role"] == m.role
    ensures "content" in d && d["content"] == m.content
  {
    map["role" := m.role, "content" := m.content]
  }

  /** The dict list a conversation is sent as. */
  function ToDicts(ms: seq<Message>): (ds: seq<Dict>)
    ensures |ds| == |ms|
    ensures forall i :: 0 <= i < |ms| ==> ds[i] == ToDict(ms[i])
  {
    seq(|ms|, i requires 0 <= i < |ms| => ToDict(ms[i]))
  }

  /** `d.get(key, default)`. */
  function Get(d: Dict, key: string, default: string): string {
    if key in d then d[key] else default
  }

  /** Truthiness of an `Optional[str]`: neither `None` nor the empty string. */
  predicate Truthy(o: Option<string>) {
    o.Some? && o.value != ""
  }

  /** Python's `a or b` on two `Optional[str]` values. */
  function Or(a: Option<string>, b: Option<string>): (r: Option<string>)
    ensures Truthy(r) <==> Truthy(a) || Truthy(b)
    ensures Truthy(a) ==> r == a
    ensures !Truthy(a) ==> r == b
  {
    if Truthy(a) then a else b
  }

  /** Python's `a or default` where `default` is a non-empty literal. */
  function OrElse(a: Option<string>, default: string): (r: string)
    requires default != ""
    ensures r != ""
    ensures Truthy(a) ==> r == a.value
    ensures !Truthy(a) ==> r == default
  {
    if Truthy(a) then a.value else default
  }

  /**
   * What the key lookup finds: the text of the key file if the file exists,
   * and the value of the environment variable if it is set.
   */
  datatype KeySource = KeySource(file: Option<string>, env: Option<string>)

  /** The key file is used when its stripped text is non-empty and does not start with `#`. */
  predicate AcceptsKeyFile(text: string) {
    Strip(text) != "" && !StartsWith(Strip(text), "#")
  }

  /** `aliases.get(model, model)`: a known alias resolves, anything else passes through. */
  function Resolve(aliases: map<string, string>, model: string): (id: string)
    ensures model in aliases ==> id == aliases[model]
    ensures model !in aliases ==> id == model
  {
    if model in aliases then aliases[model] else model
  }

  /**
   * A table none of whose targets is itself an alias other than of itself:
   * resolving twice is resolving once.
   */
  lemma {:induction false} ResolveIdempotent(aliases: map<string, string>, model: string)
    requires forall a :: a in aliases && aliases[a] in aliases ==> aliases[aliases[a]] == aliases[a]
    ensures Resolve(aliases, Resolve(aliases, model)) == Resolve(aliases, model)
  {
  }
}
