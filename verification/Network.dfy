/** Lines and vehicle journeys (model/lines.go, model/vehicle_journey.go). */
module Network {
  import opened Common

  datatype Line = Line(
    id: string,
    objectIds: ObjectIds,
    name: string,
    origin: string,
    collectGeneralMessages: bool,
    collectedAt: Time)

  /** Free texts under their names; an empty text is not kept (model/attributes.go). */
  type Attributes = map<string, string>

  function SetAttribute(attributes: Attributes, key: string, value: string): Attributes {
    if value == "" then attributes else attributes[key := value]
  }

  /** References to objects that may be unknown; an empty one is not kept (model/references.go). */
  type References = map<string, ObjectId>

  const ORIGIN_REF := "OriginRef"
  const DESTINATION_REF := "DestinationRef"

  function SetObjectId(references: References, key: string, o: ObjectId): References {
    if o.kind == "" || o.value == "" then references else references[key := o]
  }

  datatype VehicleJourney = VehicleJourney(
    id: string,
    objectIds: ObjectIds,
    lineId: string,
    name: string,
    origin: string,
    originName: string,
    destinationName: string,
    monitored: bool,
    attributes: Attributes,
    references: References)
}
