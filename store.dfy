/** The record stores the two core files read and write: uploaded files (`CsvFile`), their cells
    (`CsvFileData`) and trained models (`MLModel`), kept as in-memory sequences of records in one
    `Database` object; and the enumeration of algorithm codes. */
module Store {
  import opened Results
  import opened PyValues

  type UserId = nat
  type FileId = nat

  /** A fitted-model object returned by the learning library; opaque to the model. */
  type Handle = nat

  /** The column types a cell record can carry. */
  datatype ColumnRole = Input | Target | Ignore

  /** The algorithm codes: one per trainer, the `AUTOMATIC` sentinel, and any other code. */
  datatype Algorithm =
    | LinearRegression
    | KNearestNeighborsClassifier
    | KNearestNeighborsRegressor
    | LogisticRegression
    | NearestCentroid
    | LinearDiscriminantAnalysis
    | DecisionTreeRegressor
    | GaussianNaiveBayes
    | RandomForestClassifier
    | RandomForestRegressor
    | SupportVectorMachineClassifier
    | SupportVectorMachineRegressor
    | Automatic
    | Other(code: int)

  datatype CsvFile = CsvFile(id: FileId, rawName: string, displayName: string, owner: UserId)

  datatype CellRecord = CellRecord(
    parentFile: FileId,
    data: Value,
    rowNum: nat,
    columnNum: nat,
    columnHeader: string,
    role: ColumnRole)

  datatype ModelRecord = ModelRecord(
    typeLabel: string,
    typeNum: Algorithm,
    data: Handle,
    name: string,
    displayName: string,
    parameters: Bag,
    parentFile: FileId,
    accuracy: Value,
    accuracyType: Value)

  /** The position of the file with this id, as `CsvFile.objects.get(id=...)` finds it. With
      duplicate ids this returns the last match where Django would raise MultipleObjectsReturned;
      that cannot arise, since every view requires `Valid()`, which includes `UniqueIds`. */
  function FindFile(files: seq<CsvFile>, id: FileId): (r: Option<nat>)
    ensures r.Some? ==> r.value < |files| && files[r.value].id == id
    ensures r.None? <==> forall i :: 0 <= i < |files| ==> files[i].id != id
    decreases |files|
  {
    if |files| == 0 then None
    else if files[|files| - 1].id == id then Some(|files| - 1)
    else FindFile(files[..|files| - 1], id)
  }

  /** Record ids are positive, below the next id to hand out (itself positive), and distinct. */
  ghost predicate UniqueIds(files: seq<CsvFile>, nextId: FileId) {
    && 0 < nextId
    && (forall i :: 0 <= i < |files| ==> 0 < files[i].id < nextId)
    && (forall i, j :: 0 <= i < j < |files| ==> files[i].id != files[j].id)
  }

  class Database {
    var files: seq<CsvFile>
    var cells: seq<CellRecord>
    var models: seq<ModelRecord>
    var nextFileId: FileId

    ghost predicate Valid()
      reads this
    {
      UniqueIds(files, nextFileId)
    }

    constructor ()
      ensures Valid()
      ensures files == [] && cells == [] && models == [] && nextFileId == 1
    {
      files, cells, models, nextFileId := [], [], [], 1;
    }
  }
}
