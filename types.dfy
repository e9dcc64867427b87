/** Values shared by the cache, the phase tracker and the layouts. */
module Types {

  /** The subapplication identifiers the host uses. The source is not
      consistent about them: the declared type lists `tasks` and `contacts`,
      the router produces `app1` and `users`; all four are here. */
  datatype AppId = Tasks | Contacts | App1 | Users

  datatype Option<T> = None | Some(value: T)

  /** An opaque reference to a subapplication's root UI factory (a module's `default` export). */
  datatype ComponentRef = ComponentRef(tag: nat)

  /** A value thrown or rejected by a loader: an `Error` object, or any other
      value, which may or may not carry a `message` property. */
  datatype Thrown =
    | ErrorInstance(message: string)
    | NonError(messageProperty: Option<string>)

  /** How one invocation of a loader settles; which one happens is up to the environment. */
  datatype LoadOutcome = Success(component: ComponentRef) | Failure(thrown: Thrown)

  /** The text stored when a failure carries no usable message. */
  const DefaultLoadError: string := "Failed to load micro-frontend"

  /** `b` agrees with `a` on every key except `id`. */
  ghost predicate AgreeExcept<V>(a: map<AppId, V>, b: map<AppId, V>, id: AppId) {
    forall k :: k != id ==> (k in a <==> k in b) && (k in a ==> a[k] == b[k])
  }
}
