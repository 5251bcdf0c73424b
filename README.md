# Aviatrix firewall instance and device attachment adapters in Dafny

This project models two resource adapters of the Aviatrix Terraform provider.

- `aviatrix_firewall_instance` launches a firewall instance in a FireNet VPC.
  Create validates the availability zone against the VPC's cloud type. If a
  zone is given, Create encodes it into both subnets as `subnet~~zone~~`.
  Create then creates the instance, takes the returned instance ID as the
  resource Id and runs Read. Read merges the controller's record into the
  state, with a different rule for each field. Delete sends the VPC ID and
  the instance ID.
- `aviatrix_device_transit_gateway_attachment` attaches a device to a transit
  gateway over BGP. Marshal renders the attributes as the client's all-text
  record. Create sends that record and takes the connection name as the Id.
  Read parses the controller's record back in a fixed order and stops at the
  first text that does not parse. Delete is keyed by the connection name.

Every call into the `goaviatrix` client is a function parameter of the
operation that makes it. The parameter maps the request to the client's
reply: a value, `ErrNotFound`, or some other error. Terraform's
`schema.ResourceData` is a class `ResourceData` with the resource Id and the
attributes as its fields. Each `d.Set` or `d.SetId` of the source is one
assignment to those fields. The `Create` and `Read` methods of both adapters
are proved equal to pure functions: the firewall's `CreateRequest` and
`ReadSpec`, and the attachment's `Marshal` and `ReadSpec`. The attachment's
`ReadSpec` is built on `Apply`. The properties the adapters promise are then
proved about those functions. The `Delete` methods, and the two halves of the
firewall Read (`SetReported` and `MergeOptional`), state their results
directly.

Files:

- `wrappers.dfy`: `Option`, `Result`, and the client's sentinel error.
- `strconv.dfy`: the Go `strconv` functions the attachment adapter uses
  (`Itoa`, `Atoi`, `FormatBool`, `ParseBool`), over Go's 64-bit `int`.
- `firewall_instance.dfy`: the firewall instance adapter.
- `device_transit_gateway_attachment.dfy`: the attachment adapter and its
  schema defaults.

Three consequences of the code are worth stating plainly:

- On an import, the firewall Read sets `instance_id` to the Id before its
  lookup. So a `NotFound` or a lookup error after an import leaves
  `instance_id` changed. Outside imports, a failed Read changes no attribute
  (`FirewallInstanceResource.ReadSpec`).
- An import never restores three attributes:
  - `key_name` (firewall), because Read overwrites it only when the state
    already has one;
  - `password` (firewall), which Read never reads back;
  - `pre_shared_key` (attachment), which Read never reads back.
- Firewall Create sets the Id and then calls Read while `instance_id` is
  still empty. So that Read always runs as an import, keyed by the new
  instance ID (`FirewallInstanceResource.ReadAfterCreate`).

## Model

| member | source | states |
|---|---|---|
| Strconv.Digits | aviatrix/resource_aviatrix_device_transit_gateway_attachment.go:130-136 | the decimal digits of a natural number are non-empty, all digits, and have no leading zero once the number is 10 or more |
| Strconv.Itoa | aviatrix/resource_aviatrix_device_transit_gateway_attachment.go:130-136 | `strconv.Itoa` renders a minus sign exactly for negative numbers, followed by a non-empty run of decimal digits |
| Strconv.Atoi | aviatrix/resource_aviatrix_device_transit_gateway_attachment.go:188-211 | `strconv.Atoi` accepts only an optional sign followed by decimal digits; any other first character is a syntax error, and a negative result needs a leading `-` |
| Strconv.FormatBool | aviatrix/resource_aviatrix_device_transit_gateway_attachment.go:138 | a bool is rendered as `"true"` or `"false"` |
| Strconv.ParseBool | aviatrix/resource_aviatrix_device_transit_gateway_attachment.go:219-222 | `strconv.ParseBool` rejects the empty text, and an accepted text is true exactly when it starts with `1`, `t` or `T` |
| Strconv.DigitsValueOfDigits | aviatrix/resource_aviatrix_device_transit_gateway_attachment.go:130-136 | reading the rendered digits back as a decimal number gives the number again |
| Strconv.AtoiOfItoa | aviatrix/resource_aviatrix_device_transit_gateway_attachment.go:188-211 | for every Go `int` n, `Atoi(Itoa(n))` succeeds with n |
| Strconv.ItoaInjective | aviatrix/resource_aviatrix_device_transit_gateway_attachment.go:130-136 | two Go `int`s with the same decimal text are equal |
| Strconv.ParseBoolOfFormatBool | aviatrix/resource_aviatrix_device_transit_gateway_attachment.go:219-222 | for every bool b, `ParseBool(FormatBool(b))` succeeds with b |
| AttachmentResource.WithDefaults | aviatrix/resource_aviatrix_device_transit_gateway_attachment.go:52-100 | an unset phase 1 or phase 2 attribute takes its schema default (`SHA-256`, 14, `AES-256-CBC`; `HMAC-SHA-256`, 14, `AES-256-CBC`), the global accelerator defaults to false, an unset string without a default is empty, and every set attribute keeps its value |
| AttachmentResource.Marshal | aviatrix/resource_aviatrix_device_transit_gateway_attachment.go:124-143 | the routing protocol is always `"bgp"`, every string attribute is copied verbatim, each ASN and DH group is its `strconv.Itoa` text, which `Atoi` parses back to the attribute, and the accelerator flag is `"true"` or `"false"` as the attribute says |
| AttachmentResource.Apply | aviatrix/resource_aviatrix_device_transit_gateway_attachment.go:184-233 | after a successful lookup, Read either succeeds with the Id and `connection_name` equal to the remote connection name, or fails with a conversion error and leaves the Id alone; the pre-shared key is never changed; each tunnel IP is overwritten on success exactly when the call is an import or the IP was already set, and never on failure |
| AttachmentResource.ReadSpec | aviatrix/resource_aviatrix_device_transit_gateway_attachment.go:158-234 | Read looks up the current Id exactly when `connection_name` is empty (an import) and otherwise the connection name; `NotFound` clears the Id with no error and no attribute changed; any other error sets no attribute; a successful Read leaves the Id equal to the connection name, or empty |
| AttachmentResource.ApplyStopsAtFirstFailure | aviatrix/resource_aviatrix_device_transit_gateway_attachment.go:184-223 | a conversion error names a field whose remote text does not parse, and every field assigned before it holds the remote value |
| AttachmentResource.ApplyKeepsTheRest | aviatrix/resource_aviatrix_device_transit_gateway_attachment.go:184-223 | after a conversion error at a field, that field and every field after it in Read's order keep their prior values |
| AttachmentResource.ApplyWritesEveryField | aviatrix/resource_aviatrix_device_transit_gateway_attachment.go:184-224 | Read succeeds after a lookup exactly when every numeric and bool text parses, and then every field holds the remote value |
| AttachmentResource.ApplyOfMarshal | aviatrix/resource_aviatrix_device_transit_gateway_attachment.go:188-223 | reading back an unmodified marshalled record reproduces every attribute exactly and sets the Id to the connection name, import or not |
| AttachmentResource.ReadAfterCreate | aviatrix/resource_aviatrix_device_transit_gateway_attachment.go:154-234 | after Create has set the Id to the connection name, a controller that returns the record it was sent makes Read return the attributes unchanged |
| AttachmentResource.ReadIsIdempotent | aviatrix/resource_aviatrix_device_transit_gateway_attachment.go:158-234 | a second Read against a controller that answers with the name it was asked for changes nothing once the first one succeeded |
| AttachmentResource.ResourceData.Create | aviatrix/resource_aviatrix_device_transit_gateway_attachment.go:145-156 | Create sends the marshalled attributes; on success the Id becomes the connection name, on a client error the Id is unchanged; no attribute changes |
| AttachmentResource.ResourceData.Read | aviatrix/resource_aviatrix_device_transit_gateway_attachment.go:158-234 | the `d.Set` sequence with its early returns leaves exactly the error, Id and attributes `ReadSpec` gives |
| AttachmentResource.ResourceData.Delete | aviatrix/resource_aviatrix_device_transit_gateway_attachment.go:236-246 | Delete sends the state's `connection_name` and fails exactly when the client does |
| FirewallInstanceResource.SubnetOfZoneSubnet | aviatrix/resource_aviatrix_firewall_instance.go:167-170 | a subnet recovered from a zone-encoded subnet encodes back to it |
| FirewallInstanceResource.SubnetOfZoneSubnetRoundTrip | aviatrix/resource_aviatrix_firewall_instance.go:167-170 | given the zone, the original subnet can be recovered from `subnet~~zone~~` |
| FirewallInstanceResource.CreateRequest | aviatrix/resource_aviatrix_firewall_instance.go:140-170 | a failed cloud-type lookup is a VPC-not-found or lookup error; with the cloud type known, Create fails exactly when a zone is given and the cloud is not AZURE; otherwise the request carries the configured attributes and nothing computed, with both subnets unchanged when there is no zone and exactly `subnet + "~~" + zone + "~~"` when there is one |
| FirewallInstanceResource.Refresh | aviatrix/resource_aviatrix_firewall_instance.go:212-245 | the identifying and computed attributes take the remote values; `zone` becomes `"az-"` plus the remote zone exactly when the zone was set or this is an import, the zone is neither empty nor `AvailabilitySet`, and the vendor is `Azure ARM`, and otherwise keeps its value; image version, IAM role, bootstrap bucket and username are overwritten only by non-empty remote values; `key_name` only when it was set; `password` never |
| FirewallInstanceResource.ReadSpec | aviatrix/resource_aviatrix_firewall_instance.go:184-248 | an empty `instance_id` marks an import, which sets `instance_id` to the Id and looks that up; `NotFound` clears the Id with no error; any other error is an error that leaves the Id; outside an import a failed Read changes no attribute; a found instance is merged by `Refresh` |
| FirewallInstanceResource.ReadAfterCreate | aviatrix/resource_aviatrix_firewall_instance.go:180-181 | the Read that Create runs is an import keyed by the new instance ID, and when the controller echoes the configuration it succeeds, keeps the Id and keeps every configured attribute |
| FirewallInstanceResource.ReadIsIdempotent | aviatrix/resource_aviatrix_firewall_instance.go:184-248 | a second Read against a controller that answers with the instance ID it was asked for changes nothing once the first one found the instance |
| FirewallInstanceResource.ResourceData.Create | aviatrix/resource_aviatrix_firewall_instance.go:137-182 | a validation failure returns its error before any create call, with Id and attributes unchanged; otherwise the request sent is `CreateRequest`'s; a create error leaves Id and attributes unchanged; a created instance sets the Id and ends in the Read `ReadSpec` describes |
| FirewallInstanceResource.ResourceData.Read | aviatrix/resource_aviatrix_firewall_instance.go:184-248 | the import step, the lookup and the `d.Set` sequence leave exactly the error, Id and attributes `ReadSpec` gives |
| FirewallInstanceResource.ResourceData.SetReported | aviatrix/resource_aviatrix_firewall_instance.go:212-229 | the unconditional writes and the zone rule of Read, with every other attribute and the Id unchanged |
| FirewallInstanceResource.ResourceData.MergeOptional | aviatrix/resource_aviatrix_firewall_instance.go:231-245 | the conditional writes of the optional attributes, with every other attribute and the Id unchanged |
| FirewallInstanceResource.ResourceData.Delete | aviatrix/resource_aviatrix_firewall_instance.go:250-266 | Delete sends exactly the state's `vpc_id` and `instance_id`, and fails exactly when the client does |

## Left out

- The `goaviatrix` client (`GetVpcCloudTypeById`, `CreateFirewallInstance`, `GetFirewallInstance`, `DeleteFirewallInstance` and the attachment calls): it is external, so each call is represented only by its reply.
- The value of `goaviatrix.AZURE` is defined in the client, which is not part of this model. The model uses the code 8 and depends only on its being one fixed code.
- `validateAzureAZ` is not part of this model: the zone is any string.
- Terraform SDK behaviour: `ForceNew`, `Computed`, `Sensitive`, `ImportStatePassthrough`, plan and diff, and what the SDK does with the state after an error or after Delete. The model records the state as the adapter leaves it.
- The `.(string)`, `.(int)` and `.(bool)` assertions on `d.Get` are taken to succeed, as the schema's types guarantee. `int` is Go's 64-bit `int`.
- Logging and the wording of error messages: errors are told apart only by which `return` produced them.
- The schema literals, except the attachment's default values (`AttachmentResource.WithDefaults`).
- The attachment Read's `d.SetId(id)` on import, which re-sets the Id to itself and changes nothing.
- Strconv.Atoi: does not always give the error kind Go gives for a text of 19 or more characters that overflows before a non-digit. Go reports `ErrRange` there, the model `ErrSyntax`. The adapters only test whether a conversion failed, never which kind.
