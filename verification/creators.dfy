/** The per-resource table of the action creators in motorcycleActions.js,
    serviceActions.js and categoryActions.js: for every creator, the one HTTP
    request it issues and the part of the response body it reports. */
module Creators {
  import opened Wrappers

  datatype Resource = Motorcycle | Service | Category

  /** Every creator that talks to the server. The comment after each names
      the action-type prefix its REQUEST/SUCCESS/FAIL constants share. */
  datatype Creator =
    | CreateMotorcycle      // CREATE_MOTORCYCLES
    | MyMotorcycle          // MY_MOTORCYCLES
    | ViewAllMotorcycles    // ALL_MOTORCYCLES
    | UpdateMotorcycle      // UPDATE_MOTORCYCLES (also imports UPDATE_MOTORCYCLES_RESET)
    | GetMotorcycleDetails  // MOTORCYCLE_DETAILS
    | DeleteMotorcycle      // DELETE_MOTORCYCLES (also imports DELETE_MOTORCYCLES_RESET)
    | GetAllServices        // ALL_SERVICES
    | GetAdminServices      // ADMIN_SERVICES
    | DeleteService         // DELETE_SERVICE
    | GetServiceDetails     // SERVICE_DETAILS
    | UpdateService         // UPDATE_SERVICE
    | NewService            // NEW_SERVICE
    | CreateCategory        // CREATE_CATEGORY
    | ViewAllCategories     // ALL_CATEGORY
    | GetCategoryDetails    // CATEGORY_DETAILS
    | UpdateCategory        // UPDATE_CATEGORY
    | DeleteCategory        // DELETE_CATEGORY

  /** The CRUD operation a creator performs. */
  datatype Kind = List | Details | Create | Update | Delete

  datatype Verb = GET | POST | PUT | DELETE

  /** The explicit `Content-Type` header a creator sets, if any. */
  datatype ContentType = Multipart | Json

  /** A fixed path, or a prefix followed by the interpolated id (`${id}`). */
  datatype Route = Fixed(path: string) | ById(prefix: string)

  /** What a creator sends and what it reports: `payloadPath` is the chain
      of keys read from the response body `data` for the SUCCESS payload
      (empty when the whole body is reported). */
  datatype RequestSpec = RequestSpec(
    verb: Verb,
    route: Route,
    contentType: Option<ContentType>,
    payloadPath: seq<string>)

  function ResourceOf(c: Creator): Resource {
    match c
    case CreateMotorcycle | MyMotorcycle | ViewAllMotorcycles
       | UpdateMotorcycle | GetMotorcycleDetails | DeleteMotorcycle => Motorcycle
    case GetAllServices | GetAdminServices | DeleteService
       | GetServiceDetails | UpdateService | NewService => Service
    case CreateCategory | ViewAllCategories | GetCategoryDetails
       | UpdateCategory | DeleteCategory => Category
  }

  function KindOf(c: Creator): Kind {
    match c
    case MyMotorcycle | ViewAllMotorcycles | GetAllServices
       | GetAdminServices | ViewAllCategories => List
    case GetMotorcycleDetails | GetServiceDetails | GetCategoryDetails => Details
    case CreateMotorcycle | NewService | CreateCategory => Create
    case UpdateMotorcycle | UpdateService | UpdateCategory => Update
    case DeleteMotorcycle | DeleteService | DeleteCategory => Delete
  }

  /** The HTTP verb each kind of operation uses. */
  function VerbFor(k: Kind): Verb {
    match k
    case List => GET
    case Details => GET
    case Create => POST
    case Update => PUT
    case Delete => DELETE
  }

  /** Whether the operation addresses one existing entity by its id. */
  predicate TargetsOne(k: Kind) {
    k == Details || k == Update || k == Delete
  }

  /** The request table, one row per creator, as the three action files
      write it. */
  function Spec(c: Creator): (r: RequestSpec)
    ensures r.verb == VerbFor(KindOf(c))
    ensures r.route.ById? <==> TargetsOne(KindOf(c))
    ensures r.contentType == Some(Multipart) <==> KindOf(c) == Create
    ensures r.contentType == Some(Json) <==> KindOf(c) == Update
    ensures KindOf(c) == Update || KindOf(c) == Delete ==> r.payloadPath == ["success"]
    ensures |r.payloadPath| <= 1
  {
    match c
    // motorcycleActions.js
    case CreateMotorcycle =>
      RequestSpec(POST, Fixed("/api/v1/create/motorcycle/new"), Some(Multipart), ["motorcycle"])
    case MyMotorcycle =>
      RequestSpec(GET, Fixed("/api/v1/list-motorcycle"), None, ["userMotorcycles"])
    case ViewAllMotorcycles =>
      RequestSpec(GET, Fixed("/api/v1/admin/view/all/motorcycles"), None, ["motorcycles"])
    case UpdateMotorcycle =>
      RequestSpec(PUT, ById("/api/v1/admin/motorcycle/"), Some(Json), ["success"])
    case GetMotorcycleDetails =>
      RequestSpec(GET, ById("/api/v1/admin/motorcycle/"), None, ["motorcycle"])
    case DeleteMotorcycle =>
      RequestSpec(DELETE, ById("/api/v1/admin/motorcycle/"), None, ["success"])
    // serviceActions.js
    case GetAllServices =>
      RequestSpec(GET, Fixed("/api/v1/showAllServices"), None, [])
    case GetAdminServices =>
      RequestSpec(GET, Fixed("/api/v1/admin/view/all/services"), None, ["services"])
    case DeleteService =>
      RequestSpec(DELETE, ById("/api/v1/admin/service/"), None, ["success"])
    case GetServiceDetails =>
      RequestSpec(GET, ById("/api/v1/showSingleService/"), None, ["service"])
    case UpdateService =>
      RequestSpec(PUT, ById("/api/v1/admin/service/"), Some(Json), ["success"])
    case NewService =>
      RequestSpec(POST, Fixed("/api/v1/add-service"), Some(Multipart), [])
    // categoryActions.js
    case CreateCategory =>
      RequestSpec(POST, Fixed("/api/v1/add/category/new"), Some(Multipart), [])
    case ViewAllCategories =>
      RequestSpec(GET, Fixed("/api/v1/admin/view/all/category"), None, ["categories"])
    case GetCategoryDetails =>
      RequestSpec(GET, ById("/api/v1/admin/category/"), None, ["category"])
    case UpdateCategory =>
      RequestSpec(PUT, ById("/api/v1/admin/category/"), Some(Json), ["success"])
    case DeleteCategory =>
      RequestSpec(DELETE, ById("/api/v1/admin/category/"), None, ["success"])
  }

  /** The creators that report the whole response body rather than one of
      its fields: exactly `getAllServices`, `newService` and `createCategory`. */
  lemma WholeBodyCreators(c: Creator)
    ensures Spec(c).payloadPath == [] <==> c in {GetAllServices, NewService, CreateCategory}
  {
  }

  /** The fields motorcycleActions.js reports. */
  lemma MotorcyclePayloadFields(c: Creator)
    requires ResourceOf(c) == Motorcycle
    ensures c == CreateMotorcycle || c == GetMotorcycleDetails <==> Spec(c).payloadPath == ["motorcycle"]
    ensures c == MyMotorcycle <==> Spec(c).payloadPath == ["userMotorcycles"]
    ensures c == ViewAllMotorcycles <==> Spec(c).payloadPath == ["motorcycles"]
    ensures c == UpdateMotorcycle || c == DeleteMotorcycle <==> Spec(c).payloadPath == ["success"]
  {
  }

  /** The fields serviceActions.js reports. */
  lemma ServicePayloadFields(c: Creator)
    requires ResourceOf(c) == Service
    ensures c == GetAdminServices <==> Spec(c).payloadPath == ["services"]
    ensures c == GetServiceDetails <==> Spec(c).payloadPath == ["service"]
    ensures c == UpdateService || c == DeleteService <==> Spec(c).payloadPath == ["success"]
  {
  }

  /** The fields categoryActions.js reports. */
  lemma CategoryPayloadFields(c: Creator)
    requires ResourceOf(c) == Category
    ensures c == ViewAllCategories <==> Spec(c).payloadPath == ["categories"]
    ensures c == GetCategoryDetails <==> Spec(c).payloadPath == ["category"]
    ensures c == UpdateCategory || c == DeleteCategory <==> Spec(c).payloadPath == ["success"]
  {
  }

  /** For motorcycles and categories, details, update and delete address the
      same `/api/v1/admin/<resource>/${id}` route. For services, update and
      delete share `/api/v1/admin/service/${id}` but details reads
      `/api/v1/showSingleService/${id}`. */
  lemma IdRoutes(c1: Creator, c2: Creator)
    requires TargetsOne(KindOf(c1)) && TargetsOne(KindOf(c2))
    requires ResourceOf(c1) == ResourceOf(c2)
    ensures ResourceOf(c1) != Service ==> Spec(c1).route == Spec(c2).route
    ensures ResourceOf(c1) == Service ==>
              (Spec(c1).route == Spec(c2).route <==>
               (KindOf(c1) == Details) == (KindOf(c2) == Details))
  {
  }
}
