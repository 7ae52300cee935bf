/** The (bucket, key, size) triple by which the indexing code names an
    uploaded object. */
module S3 {

  /** `(s3_bucket_name, s3_object_key, s3_object_size)`. The size is the
      object size the upload event declares; nothing checks its sign. */
  datatype S3Tuple = S3Tuple(bucket: string, key: string, size: int)
}
