/** The result records the face tasks build up: a plain JavaScript object, modelled as a map from
    property names to values, extended one property group at a time by the `extendWith*`
    factories and recognised by the `isWith*` predicates. Records are values, so a factory never
    changes the record it extends. */
module Factories {
  import opened Common
  import AgeGenderNetModel

  /** The property values the factories read and write. */
  datatype Value =
    | Num(n: real)                    // a `number`
    | Str(s: string)
    | Floats(data: seq<real>)         // a `Float32Array`
    | Instance(className: string)     // an object made by `new className(…)`; `instanceof` is taken as this exact class
    | Other

  type Record = map<string, Value>

  /** `obj[key]`; None is `undefined`. */
  function Get(obj: Record, key: string): Option<Value> {
    if key in obj then Some(obj[key]) else None
  }

  /** `Object.assign({}, sourceObj, extension)`: the properties of both, those of the extension
      winning. */
  function Extend(sourceObj: Record, extension: Record): (r: Record)
    ensures r.Keys == sourceObj.Keys + extension.Keys
    ensures forall k | k in extension :: r[k] == extension[k]
    ensures forall k | k in sourceObj && k !in extension :: r[k] == sourceObj[k]
  {
    sourceObj + extension
  }

  /** `isValidProbablitiy(v)`: a number between 0 and 1. */
  predicate IsValidProbability(v: Option<Value>) {
    v.Some? && v.value.Num? && 0.0 <= v.value.n <= 1.0
  }

  // ----- gender ---------------------------------------------------------------------------

  /** `isWithGender(obj)`: `gender` is exactly `male` or `female` and `genderProbability` is a
      probability. */
  predicate IsWithGender(obj: Record) {
    (Get(obj, "gender") == Some(Str("male")) || Get(obj, "gender") == Some(Str("female")))
    && IsValidProbability(Get(obj, "genderProbability"))
  }

  /** `extendWithGender(sourceObj, gender, genderProbability)` */
  function ExtendWithGender(sourceObj: Record, gender: string, genderProbability: real): (r: Record)
    ensures r.Keys == sourceObj.Keys + {"gender", "genderProbability"}
    ensures r["gender"] == Str(gender) && r["genderProbability"] == Num(genderProbability)
    ensures forall k | k in sourceObj && k != "gender" && k != "genderProbability" :: r[k] == sourceObj[k]
  {
    Extend(sourceObj, map["gender" := Str(gender), "genderProbability" := Num(genderProbability)])
  }

  /** An extended record is recognised exactly when the gender is one of the two names and the
      probability lies in [0, 1], whatever the source held. */
  lemma ExtendWithGenderRecognised(sourceObj: Record, gender: string, genderProbability: real)
    ensures IsWithGender(ExtendWithGender(sourceObj, gender, genderProbability)) <==>
      (gender == "male" || gender == "female") && 0.0 <= genderProbability <= 1.0
  {
  }

  /** A prediction of the age and gender net, recorded with `extendWithGender`, is recognised. */
  lemma PredictionRecognised(sourceObj: Record, age: real, probMale: real)
    requires 0.0 <= probMale <= 1.0
    ensures
      var p := AgeGenderNetModel.Predict(age, probMale);
      IsWithGender(ExtendWithGender(sourceObj, AgeGenderNetModel.GenderName(p.gender), p.genderProbability))
  {
    var p := AgeGenderNetModel.Predict(age, probMale);
    AgeGenderNetModel.PredictLikelier(age, probMale);
    ExtendWithGenderRecognised(sourceObj, AgeGenderNetModel.GenderName(p.gender), p.genderProbability);
  }

  // ----- age ------------------------------------------------------------------------------

  /** `isWithAge(obj)`: `typeof obj['age'] === 'number'` */
  predicate IsWithAge(obj: Record) {
    Get(obj, "age").Some? && Get(obj, "age").value.Num?
  }

  /** `extendWithAge(sourceObj, age)` */
  function ExtendWithAge(sourceObj: Record, age: real): (r: Record)
    ensures r.Keys == sourceObj.Keys + {"age"}
    ensures r["age"] == Num(age)
    ensures forall k | k in sourceObj && k != "age" :: r[k] == sourceObj[k]
  {
    Extend(sourceObj, map["age" := Num(age)])
  }

  lemma ExtendWithAgeRecognised(sourceObj: Record, age: real)
    ensures IsWithAge(ExtendWithAge(sourceObj, age))
  {
  }

  // ----- face descriptor ------------------------------------------------------------------

  /** `extendWithFaceDescriptor(sourceObj, descriptor)` */
  function ExtendWithFaceDescriptor(sourceObj: Record, descriptor: seq<real>): (r: Record)
    ensures r.Keys == sourceObj.Keys + {"descriptor"}
    ensures r["descriptor"] == Floats(descriptor)
    ensures forall k | k in sourceObj && k != "descriptor" :: r[k] == sourceObj[k]
  {
    Extend(sourceObj, map["descriptor" := Floats(descriptor)])
  }

  // ----- face expressions -----------------------------------------------------------------

  /** `isWithFaceExpressions(obj)`: `obj['expressions'] instanceof FaceExpressions` */
  predicate IsWithFaceExpressions(obj: Record) {
    Get(obj, "expressions") == Some(Instance("FaceExpressions"))
  }

  /** `extendWithFaceExpressions(sourceObj, expressions)` */
  function ExtendWithFaceExpressions(sourceObj: Record, expressions: Value): (r: Record)
    ensures r.Keys == sourceObj.Keys + {"expressions"}
    ensures r["expressions"] == expressions
    ensures forall k | k in sourceObj && k != "expressions" :: r[k] == sourceObj[k]
  {
    Extend(sourceObj, map["expressions" := expressions])
  }

  /** An extended record is recognised exactly when the value given is a `FaceExpressions`. */
  lemma ExtendWithFaceExpressionsRecognised(sourceObj: Record, expressions: Value)
    ensures IsWithFaceExpressions(ExtendWithFaceExpressions(sourceObj, expressions)) <==>
      expressions == Instance("FaceExpressions")
  {
  }

  // ----- face detection -------------------------------------------------------------------

  /** `isWithFaceDetection(obj)`: `obj['detection'] instanceof FaceDetection` */
  predicate IsWithFaceDetection(obj: Record) {
    Get(obj, "detection") == Some(Instance("FaceDetection"))
  }

  /** `extendWithFaceDetection(sourceObj, detection)` */
  function ExtendWithFaceDetection(sourceObj: Record, detection: Value): (r: Record)
    ensures r.Keys == sourceObj.Keys + {"detection"}
    ensures r["detection"] == detection
    ensures forall k | k in sourceObj && k != "detection" :: r[k] == sourceObj[k]
  {
    Extend(sourceObj, map["detection" := detection])
  }

  /** An extended record is recognised exactly when the value given is a `FaceDetection`. */
  lemma ExtendWithFaceDetectionRecognised(sourceObj: Record, detection: Value)
    ensures IsWithFaceDetection(ExtendWithFaceDetection(sourceObj, detection)) <==>
      detection == Instance("FaceDetection")
  {
  }

  /** Extending records one group after another keeps every group already added, so a face can
      carry a detection, expressions, an age and a gender at once. */
  lemma ExtensionsCompose(sourceObj: Record, detection: Value, expressions: Value, age: real, gender: string, p: real)
    requires IsWithFaceDetection(sourceObj)
    ensures
      var r := ExtendWithGender(ExtendWithAge(ExtendWithFaceExpressions(sourceObj, expressions), age), gender, p);
      && IsWithFaceDetection(r)
      && (IsWithFaceExpressions(r) <==> expressions == Instance("FaceExpressions"))
      && IsWithAge(r)
      && (IsWithGender(r) <==> (gender == "male" || gender == "female") && 0.0 <= p <= 1.0)
  {
    var e := ExtendWithFaceExpressions(sourceObj, expressions);
    var a := ExtendWithAge(e, age);
    ExtendWithGenderRecognised(a, gender, p);
  }
}
