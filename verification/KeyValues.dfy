/** The key-value pairs a request carries: route params, query and form fields. */
module KeyValues {
  datatype KeyValue = KeyValue(key: string, value: string)
}
